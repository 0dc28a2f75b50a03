/**
 Neutrality over whole runs: two runs that differ only by deposits and withdrawals made after the baseline, with the
 cash they brought, are accepted, refused and invalidated alike, and store the same adjusted equity, peak and drawdown
 at every point.
 */
module NeutralRuns {
  import opened Common
  import opened Sums
  import opened Ledger
  import opened LedgerLaws
  import opened AccountRisk
  import opened RiskRuns
  import opened LedgerRisk
  import opened TransferNeutrality

  ghost predicate AllExternal(ts: seq<Activity>) {
    forall a :: a in ts ==> ExternalTransfer(a)
  }

  // The funded observation is as good as the original: same readiness, same history, same errors.

  lemma UnfundedReconciles(activities: seq<Activity>, ts: seq<Activity>, snapshot: AccountSnapshot, tolerance: real)
    requires Reconciles(activities + ts, Deposited(snapshot, Sum(ts, FlowOf)), tolerance) && AllExternal(ts)
    ensures Reconciles(activities, snapshot, tolerance)
  {
    var all := activities + ts;
    assert forall i :: 0 <= i < |activities| ==> all[i] == activities[i];
    forall a | a in activities ensures Readable(a) {
      assert a in all;
    }
    SumConcat(activities, ts, CashOf);
    ExternalTotals(ts, "");
    forall s ensures Sum(activities, QtyOf(s)) == HeldShares(snapshot, s) {
      SumConcat(activities, ts, QtyOf(s));
      ExternalTotals(ts, s);
      assert Sum(all, QtyOf(s)) == HeldShares(snapshot, s);
    }
  }

  lemma FundedReadyIff(activities: seq<Activity>, ts: seq<Activity>, snapshot: AccountSnapshot, tolerance: real)
    requires DistinctIds(activities + ts) && AllExternal(ts)
    ensures Report(activities + ts, Deposited(snapshot, Sum(ts, FlowOf)), tolerance).Ready() <==>
            Report(activities, snapshot, tolerance).Ready()
  {
    var funded := Deposited(snapshot, Sum(ts, FlowOf));
    ReadyIffReconciles(activities, snapshot, tolerance);
    ReadyIffReconciles(activities + ts, funded, tolerance);
    if Reconciles(activities, snapshot, tolerance) {
      FundedReconciles(activities, ts, snapshot, tolerance);
    }
    if Reconciles(activities + ts, funded, tolerance) {
      UnfundedReconciles(activities, ts, snapshot, tolerance);
    }
  }

  /** The same error, or the same snapshot with more cash. */
  ghost predicate SameValidation(v: Outcome<AccountSnapshot>, v': Outcome<AccountSnapshot>, amount: real) {
    if v.Err? then v' == v else v' == Ok(Deposited(v.value, amount))
  }

  lemma FundedValidation(o: Observation, ts: seq<Activity>, tolerance: real)
    requires FromLedger(o, tolerance) && DistinctIds(o.activities + ts) && AllExternal(ts)
    ensures SameValidation(ValidatedCheckpoint(o.cp), ValidatedCheckpoint(Funded(o, ts, tolerance).cp), Sum(ts, FlowOf))
  {
    FundedReadyIff(o.activities, ts, o.cp.snapshot.value, tolerance);
  }

  /** The same error, or the history extended by the transfers' evidence. */
  ghost predicate SameHistory(h: Outcome<History>, h': Outcome<History>, amount: real, more: Fingerprints) {
    if h.Err? then h' == h else h' == Ok(Extended(h.value, amount, more)) && PlainIds(h.value.transfers + more)
  }

  lemma FundedHistories(activities: seq<Activity>, ts: seq<Activity>)
    requires AllExternal(ts) && DistinctIds(activities + ts) && forall a :: a in activities ==> a.id != Some("")
    ensures SameHistory(CashHistory(activities), CashHistory(activities + ts), Sum(ts, FlowOf), EntriesOf(ts))
  {
    if CashHistory(activities).Ok? {
      FundedHistory(activities, ts);
    } else {
      assert (activities + ts)[..|activities|] == activities;
      FirstErrorStands(activities + ts, |activities|);
    }
  }

  // Twin snapshots.

  /** `r'` is `r` with the transfers `ts`: equity and flows moved by their sum, their evidence added, the rest alike. */
  ghost predicate TwinRisk(r: RiskSnapshot, r': RiskSnapshot, ts: seq<Activity>)
    requires AllExternal(ts)
  {
    && r' == r.(equity := r.equity + Sum(ts, FlowOf), flows := r.flows + Sum(ts, FlowOf), transfers := r'.transfers)
    && (forall p :: p in r'.transfers <==> p in r.transfers || p in EntriesOf(ts))
    && r.Consistent() && r'.Consistent()
  }

  /** None of the transfers has an accepted transfer's id. */
  ghost predicate IdsFresh(s: Fingerprints, ts: seq<Activity>) {
    forall p, a :: p in s && a in ts ==> a.id != Some(p.0)
  }

  lemma {:induction false} EntryOfSome(ts: seq<Activity>, p: (string, Evidence))
    requires AllExternal(ts)
    ensures p in EntriesOf(ts) <==> exists a :: a in ts && ExternalTransfer(a) && p == EntryOf(a)
  {
    if ts != [] {
      var init, last := ts[..|ts| - 1], ts[|ts| - 1];
      EntryOfSome(init, p);
      assert ts == init + [last] && ExternalTransfer(last);
    }
  }

  /** An accepted entry is found among the longer evidence exactly when it was found among the shorter. */
  lemma FoundAlike(h: Fingerprints, ts: seq<Activity>, p: (string, Evidence))
    requires AllExternal(ts) && PlainIds(h + EntriesOf(ts)) && forall a :: a in ts ==> a.id != Some(p.0)
    ensures Lookup(SortById(h + EntriesOf(ts)), p.0) == Some(p.1) <==> Lookup(SortById(h), p.0) == Some(p.1)
  {
    var more := EntriesOf(ts);
    if Lookup(SortById(h), p.0) == Some(p.1) {
      FundedEvidence(History(0.0, h, []), more, p);
    }
    if Lookup(SortById(h + more), p.0) == Some(p.1) {
      LookupIsMember(SortById(h + more), p.0, p.1);
      SortKeeps(h + more);
      assert p in multiset(h + more);
      EntryOfSome(ts, p);
      assert p in h;
      PlainLookup(h, more, p);
    }
  }

  lemma PlainLookup(h: Fingerprints, more: Fingerprints, p: (string, Evidence))
    requires PlainIds(h + more) && p in h
    ensures Lookup(SortById(h), p.0) == Some(p.1)
  {
    assert forall i :: 0 <= i < |h| ==> (h + more)[i] == h[i];
    assert PlainIds(h);
    SortValid(h);
    SortKeeps(h);
    assert p in multiset(h);
    LookupFinds(SortById(h), p);
  }

  lemma AddedFound(h: Fingerprints, ts: seq<Activity>, p: (string, Evidence))
    requires AllExternal(ts) && PlainIds(h + EntriesOf(ts)) && p in EntriesOf(ts)
    ensures Lookup(SortById(h + EntriesOf(ts)), p.0) == Some(p.1)
  {
    var all := h + EntriesOf(ts);
    SortValid(all);
    SortKeeps(all);
    assert p in all;
    assert p in multiset(all);
    LookupFinds(SortById(all), p);
  }

  /** Every entry is still reported. */
  ghost predicate AllFound(accepted: Fingerprints, reported: Fingerprints) {
    forall p :: p in accepted ==> Lookup(SortById(reported), p.0) == Some(p.1)
  }

  lemma RefusalByFinding(prior: RiskSnapshot, snapshot: AccountSnapshot, h: History, accountId: string)
    ensures PriorRefusal(prior, snapshot, h, accountId) ==
            if prior.accountId != accountId then Some(BaselineElsewhere)
            else if snapshot.observedAt.micros < prior.observedAt then Some(OutOfOrder)
            else if SortById(h.journals) != prior.journals then Some(JournalsChanged)
            else if !AllFound(prior.transfers, h.transfers) then Some(TransfersRevised)
            else None
  {
    if !AllFound(prior.transfers, h.transfers) {
      var p :| p in prior.transfers && Lookup(SortById(h.transfers), p.0) != Some(p.1);
      var i :| 0 <= i < |prior.transfers| && prior.transfers[i] == p;
    }
  }

  lemma FindingAlike(r: RiskSnapshot, r': RiskSnapshot, known: seq<Activity>, h: Fingerprints, ts: seq<Activity>)
    requires AllExternal(ts) && known <= ts && AllExternal(known) && TwinRisk(r, r', known)
    requires PlainIds(h + EntriesOf(ts)) && IdsFresh(r.transfers, ts)
    ensures AllFound(r'.transfers, h + EntriesOf(ts)) <==> AllFound(r.transfers, h)
  {
    forall p | p in r.transfers
      ensures Lookup(SortById(h + EntriesOf(ts)), p.0) == Some(p.1) <==> Lookup(SortById(h), p.0) == Some(p.1)
    {
      FoundAlike(h, ts, p);
    }
    forall p | p in EntriesOf(known) ensures Lookup(SortById(h + EntriesOf(ts)), p.0) == Some(p.1) {
      EntryOfSome(known, p);
      EntryOfSome(ts, p);
      AddedFound(h, ts, p);
    }
  }

  // One step of twin states.

  /** The outcome of an observation on a consistent prior, from what its checks read. */
  ghost function Decide(prior: RiskSnapshot, v: Outcome<AccountSnapshot>, h: Outcome<History>, accountId: string,
                        now: Moment): Outcome<RiskSnapshot>
    requires prior.highWater > 0.0
  {
    if v.Err? then Err(v.error)
    else if now.Naive? || v.value.observedAt.micros > now.micros then Err(FutureDated)
    else if v.value.accountId != accountId then Err(WrongAccount)
    else if h.Err? then Err(h.error)
    else
      var refusal := PriorRefusal(prior, v.value, h.value, accountId);
      if refusal.Some? then Err(refusal.value) else Ok(Next(prior, v.value, Equity(v.value), h.value))
  }

  ghost predicate UsableIds(activities: seq<Activity>) {
    DistinctIds(activities) && forall a :: a in activities ==> a.id != Some("")
  }

  lemma DeriveDecides(prior: RiskSnapshot, cp: Checkpoint, activities: seq<Activity>, accountId: string, now: Moment)
    requires prior.Consistent() && UsableIds(activities)
    ensures var d := Derive(Doc(prior), cp, activities, accountId, now);
            d == Decide(prior, ValidatedCheckpoint(cp), CashHistory(activities), accountId, now) && (d.Ok? ==>
              d.value.Consistent())
  {
    DistinctIdsNeverInvalid(Doc(prior), cp, activities, accountId, now);
  }

  lemma NextAlike(r: RiskSnapshot, r': RiskSnapshot, snapshot: AccountSnapshot, h: History, amount: real,
                  more: Fingerprints)
    requires r.highWater > 0.0 && r' == r.(equity := r'.equity, flows := r'.flows, transfers := r'.transfers)
    ensures var funded := Deposited(snapshot, amount);
            var n, n' := Next(r, snapshot, Equity(snapshot), h),
              Next(r', funded, Equity(funded), Extended(h, amount, more));
            && n' == n.(equity := n.equity + amount, flows := n.flows + amount, transfers := n'.transfers)
            && n.transfers == SortById(h.transfers) && n'.transfers == SortById(h.transfers + more)
  {
  }

  lemma SortedMembers(s: Fingerprints, t: Fingerprints, p: (string, Evidence))
    ensures p in SortById(s + t) <==> p in SortById(s) || p in t
  {
    SortKeeps(s + t);
    SortKeeps(s);
    assert p in multiset(s + t) <==> p in multiset(s) || p in multiset(t);
    assert p in SortById(s + t) <==> p in multiset(SortById(s + t));
    assert p in SortById(s) <==> p in multiset(SortById(s));
  }

  /** Twins but for their own validity, which `DeriveDecides` gives. */
  ghost predicate TwinFigures(r: RiskSnapshot, r': RiskSnapshot, ts: seq<Activity>)
    requires AllExternal(ts)
  {
    && r' == r.(equity := r.equity + Sum(ts, FlowOf), flows := r.flows + Sum(ts, FlowOf), transfers := r'.transfers)
    && forall p :: p in r'.transfers <==> p in r.transfers || p in EntriesOf(ts)
  }

  lemma DecideAlike(r: RiskSnapshot, r': RiskSnapshot, known: seq<Activity>, ts: seq<Activity>,
                    v: Outcome<AccountSnapshot>, v': Outcome<AccountSnapshot>, h: Outcome<History>,
                      h': Outcome<History>,
                    accountId: string, now: Moment)
    requires AllExternal(ts) && known <= ts && AllExternal(known) && TwinRisk(r, r', known) && IdsFresh(r.transfers, ts)
    requires SameValidation(v, v', Sum(ts, FlowOf)) && SameHistory(h, h', Sum(ts, FlowOf), EntriesOf(ts))
    ensures var d, d' := Decide(r, v, h, accountId, now), Decide(r', v', h', accountId, now);
            if d.Err? then d' == d else d'.Ok? && TwinFigures(d.value, d'.value, ts)
  {
    if v.Ok? && h.Ok? {
      RefusedAlike(r, r', known, ts, v.value, h.value, accountId);
      NextTwins(r, r', v.value, h.value, ts);
    }
  }

  lemma RefusedAlike(r: RiskSnapshot, r': RiskSnapshot, known: seq<Activity>, ts: seq<Activity>,
                     snapshot: AccountSnapshot, h: History, accountId: string)
    requires AllExternal(ts) && known <= ts && AllExternal(known) && TwinRisk(r, r', known) && IdsFresh(r.transfers, ts)
    requires PlainIds(h.transfers + EntriesOf(ts))
    ensures var amount := Sum(ts, FlowOf);
            PriorRefusal(r', Deposited(snapshot, amount), Extended(h, amount, EntriesOf(ts)), accountId)
            == PriorRefusal(r, snapshot, h, accountId)
  {
    var amount := Sum(ts, FlowOf);
    RefusalByFinding(r, snapshot, h, accountId);
    RefusalByFinding(r', Deposited(snapshot, amount), Extended(h, amount, EntriesOf(ts)), accountId);
    FindingAlike(r, r', known, h.transfers, ts);
  }

  lemma NextTwins(r: RiskSnapshot, r': RiskSnapshot, snapshot: AccountSnapshot, h: History, ts: seq<Activity>)
    requires AllExternal(ts) && r.highWater > 0.0
    requires r' == r.(equity := r'.equity, flows := r'.flows, transfers := r'.transfers)
    ensures var funded := Deposited(snapshot, Sum(ts, FlowOf));
            TwinFigures(Next(r, snapshot, Equity(snapshot), h),
                        Next(r', funded, Equity(funded), Extended(h, Sum(ts, FlowOf), EntriesOf(ts))), ts)
  {
    NextAlike(r, r', snapshot, h, Sum(ts, FlowOf), EntriesOf(ts));
    forall p ensures p in SortById(h.transfers + EntriesOf(ts)) <==> p in SortById(h.transfers) || p in EntriesOf(ts) {
      SortedMembers(h.transfers, EntriesOf(ts), p);
    }
  }

  /** The same errors, and either nothing stored on both sides or twin snapshots. */
  ghost predicate Twins(s: RiskFields, s': RiskFields, known: seq<Activity>)
    requires AllExternal(known)
  {
    && s'.error == s.error && s'.invalidation == s.invalidation
    && if s.risk.Doc? then s'.risk.Doc? && TwinRisk(s.risk.value, s'.risk.value, known)
       else s.risk.Missing? && s' == s && known == []
  }

  lemma PrefixIds(activities: seq<Activity>, ts: seq<Activity>)
    requires DistinctIds(activities + ts) && AllExternal(ts) && forall a :: a in activities ==> a.id != Some("")
    ensures UsableIds(activities) && UsableIds(activities + ts)
  {
    assert forall i :: 0 <= i < |activities| ==> (activities + ts)[i] == activities[i];
    NoEmptyIds(activities, ts);
  }

  lemma DeriveAlike(r: RiskSnapshot, r': RiskSnapshot, known: seq<Activity>, o: Observation, ts: seq<Activity>,
                    tolerance: real)
    requires AllExternal(ts) && known <= ts && AllExternal(known) && TwinRisk(r, r', known) && IdsFresh(r.transfers, ts)
    requires FromLedger(o, tolerance) && DistinctIds(o.activities + ts) && forall a :: a in o.activities ==>
               a.id != Some("")
    ensures var o' := Funded(o, ts, tolerance);
            var d := Derive(Doc(r), o.cp, o.activities, o.accountId, o.now);
            var d' := Derive(Doc(r'), o'.cp, o'.activities, o'.accountId, o'.now);
            if d.Err? then d' == d else d'.Ok? && TwinRisk(d.value, d'.value, ts)
  {
    var o' := Funded(o, ts, tolerance);
    PrefixIds(o.activities, ts);
    DeriveDecides(r, o.cp, o.activities, o.accountId, o.now);
    DeriveDecides(r', o'.cp, o'.activities, o'.accountId, o'.now);
    FundedValidation(o, ts, tolerance);
    FundedHistories(o.activities, ts);
    DecideAlike(r, r', known, ts, ValidatedCheckpoint(o.cp), ValidatedCheckpoint(o'.cp),
                CashHistory(o.activities), CashHistory(o'.activities), o.accountId, o.now);
  }

  /** Twin states stay twins; an acceptance learns the transfers, a refusal learns nothing. */
  lemma StepTwins(s: RiskFields, s': RiskFields, known: seq<Activity>, o: Observation, ts: seq<Activity>,
                  tolerance: real)
    requires AllExternal(ts) && known <= ts && AllExternal(known) && Twins(s, s', known)
    requires s.risk.Doc? && IdsFresh(s.risk.value.transfers, ts)
    requires FromLedger(o, tolerance) && DistinctIds(o.activities + ts) && forall a :: a in o.activities ==>
               a.id != Some("")
    ensures Twins(Step(s, o), Step(s', Funded(o, ts, tolerance)), if Step(s, o).error.None? then ts else known)
  {
    if s.invalidation.None? {
      DeriveAlike(s.risk.value, s'.risk.value, known, o, ts, tolerance);
    }
  }

  lemma FundedWithNothing(o: Observation, tolerance: real)
    requires FromLedger(o, tolerance)
    ensures Funded(o, [], tolerance) == o
  {
    assert o.activities + [] == o.activities;
  }

  lemma FirstTwins(s: RiskFields, o: Observation)
    requires s.risk.Missing?
    ensures Twins(Step(s, o), Step(s, o), [])
  {
  }

  /** What an accepted observation stores comes from its own activities, so ids beside those are fresh. */
  lemma StoredIdsFresh(s: RiskFields, o: Observation, extra: seq<Activity>)
    requires Step(s, o).error.None? && DistinctIds(o.activities + extra) && AllExternal(extra)
    requires forall a :: a in o.activities ==> a.id != Some("")
    ensures Step(s, o).risk.Doc? && IdsFresh(Step(s, o).risk.value.transfers, extra)
  {
    var h := CashHistory(o.activities).value;
    assert Step(s, o).risk.value.transfers == SortById(h.transfers);
    PrefixIds(o.activities, extra);
    SortedIdsFresh(o.activities, extra);
  }

  lemma SortedIdsFresh(activities: seq<Activity>, extra: seq<Activity>)
    requires UsableIds(activities) && DistinctIds(activities + extra) && CashHistory(activities).Ok?
    ensures IdsFresh(SortById(CashHistory(activities).value.transfers), extra)
  {
    var transfers := CashHistory(activities).value.transfers;
    HistorySourced(activities);
    SortKeeps(transfers);
    forall p, a | p in SortById(transfers) && a in extra ensures a.id != Some(p.0) {
      assert p in multiset(transfers);
      var k :| 0 <= k < |transfers| && transfers[k] == p;
      var b :| b in activities && b.id == Some(p.0);
      var i :| 0 <= i < |activities| && activities[i] == b;
      var j :| 0 <= j < |extra| && extra[j] == a;
      assert (activities + extra)[i] == b && (activities + extra)[|activities| + j] == a;
    }
  }

  // Whole runs.

  /**
   `run'` is `run` with external transfers made in between: observation `i` knows the first `known[i]` of them, none
   before the baseline is stored, and their ids are their own.
   */
  ghost predicate FundedRun(run: seq<Observation>, run': seq<Observation>, extra: seq<Activity>, known: seq<nat>,
                            tolerance: real) {
    && |run'| == |run| == |known| && AllExternal(extra)
    && (forall i, j :: 0 <= i <= j < |known| ==> known[i] <= known[j] <= |extra|)
    && (forall i :: 0 <= i < |run| ==> FundedAt(run, run'[i], extra, known[i], tolerance, i))
  }

  ghost predicate FundedAt(run: seq<Observation>, o': Observation, extra: seq<Activity>, known: nat, tolerance: real,
                           i: int)
    requires 0 <= i < |run|
  {
    && known <= |extra| && (Run(run[..i]).risk.Missing? ==> known == 0)
    && FromLedger(run[i], tolerance) && DistinctIds(run[i].activities + extra)
    && (forall a :: a in run[i].activities ==> a.id != Some(""))
    && o' == Funded(run[i], extra[..known], tolerance)
  }

  /** How many transfers the stored risk has seen: those of the last acceptance. */
  ghost function Learned(run: seq<Observation>, known: seq<nat>): nat
    requires |known| == |run|
  {
    if run == [] then 0
    else if Run(run).error.None? then known[|known| - 1]
    else Learned(run[..|run| - 1], known[..|known| - 1])
  }

  lemma FundedPrefix(run: seq<Observation>, run': seq<Observation>, extra: seq<Activity>, known: seq<nat>,
                     tolerance: real)
    requires run != [] && FundedRun(run, run', extra, known, tolerance)
    ensures var n := |run| - 1; FundedRun(run[..n], run'[..n], extra, known[..n], tolerance)
  {
    var n := |run| - 1;
    forall i | 0 <= i < n ensures FundedAt(run[..n], run'[..n][i], extra, known[..n][i], tolerance, i) {
      assert FundedAt(run, run'[i], extra, known[i], tolerance, i);
      assert run[..n][..i] == run[..i];
    }
  }

  lemma ExtraIds(o: Observation, extra: seq<Activity>, k: nat)
    requires k <= |extra| && DistinctIds(o.activities + extra) && AllExternal(extra)
    ensures DistinctIds(o.activities + extra[..k]) && AllExternal(extra[..k])
  {
    var some, all := o.activities + extra[..k], o.activities + extra;
    assert forall i :: 0 <= i < |some| ==> some[i] == all[i];
  }

  /** One observation of such a run. */
  lemma NextStaysTwin(s: RiskFields, s': RiskFields, extra: seq<Activity>, m: nat, k: nat, o: Observation,
                      tolerance: real)
    requires m <= k <= |extra| && AllExternal(extra) && AllExternal(extra[..m]) && Twins(s, s', extra[..m])
    requires s.risk.Doc? ==> IdsFresh(s.risk.value.transfers, extra)
    requires s.risk.Missing? ==> k == 0
    requires FromLedger(o, tolerance) && DistinctIds(o.activities + extra) && forall a :: a in o.activities ==>
               a.id != Some("")
    ensures AllExternal(extra[..k])
    ensures Twins(Step(s, o), Step(s', Funded(o, extra[..k], tolerance)),
                  extra[..if Step(s, o).error.None? then k else m])
  {
    ExtraIds(o, extra, k);
    if s.risk.Doc? {
      assert extra[..m] <= extra[..k];
      StepTwins(s, s', extra[..m], o, extra[..k], tolerance);
    } else {
      assert extra[..k] == [];
      FundedWithNothing(o, tolerance);
      FirstTwins(s, o);
    }
  }

  lemma NextIdsFresh(s: RiskFields, extra: seq<Activity>, o: Observation)
    requires AllExternal(extra) && (s.risk.Doc? ==> IdsFresh(s.risk.value.transfers, extra))
    requires DistinctIds(o.activities + extra) && forall a :: a in o.activities ==> a.id != Some("")
    ensures Step(s, o).risk.Doc? ==> IdsFresh(Step(s, o).risk.value.transfers, extra)
  {
    if Step(s, o).error.None? {
      StoredIdsFresh(s, o, extra);
    } else {
      RefusalStores(s, o);
    }
  }

  /**
   Over every run of ledger observations and every funding of it after the baseline, refused and invalidated
   observations included: both runs report the same errors, and what they store agrees in everything but equity, flows
   and the transfers' own evidence. So adjusted equity, peak and drawdown are exactly the same at every point.
   */
  lemma {:induction false} RunsStayNeutral(run: seq<Observation>, run': seq<Observation>, extra: seq<Activity>,
                                           known: seq<nat>, tolerance: real)
    requires FundedRun(run, run', extra, known, tolerance)
    ensures var m := Learned(run, known);
            && m <= |extra| && (run != [] ==> m <= known[|known| - 1]) && (run == [] ==> m == 0)
            && AllExternal(extra[..m]) && Twins(Run(run), Run(run'), extra[..m])
    ensures Run(run).risk.Doc? ==> IdsFresh(Run(run).risk.value.transfers, extra)
  {
    if run != [] {
      var n := |run| - 1;
      FundedPrefix(run, run', extra, known, tolerance);
      RunsStayNeutral(run[..n], run'[..n], extra, known[..n], tolerance);
      assert FundedAt(run, run'[n], extra, known[n], tolerance, n);
      var m := Learned(run[..n], known[..n]);
      assert m <= known[n];
      NextStaysTwin(Run(run[..n]), Run(run'[..n]), extra, m, known[n], run[n], tolerance);
      NextIdsFresh(Run(run[..n]), extra, run[n]);
    }
  }

  /**
   In figures: wherever one of the runs stores risk, both do, with the same baseline, adjusted equity, peak and
   drawdown.
   */
  lemma FundingNeverShows(run: seq<Observation>, run': seq<Observation>, extra: seq<Activity>, known: seq<nat>,
                          tolerance: real)
    requires FundedRun(run, run', extra, known, tolerance)
    ensures Run(run').error == Run(run).error && Run(run').invalidation == Run(run).invalidation
    ensures Run(run).risk.Doc? <==> Run(run').risk.Doc?
    ensures Run(run).risk.Doc? ==>
              var r, r' := Run(run).risk.value, Run(run').risk.value;
              && r'.adjusted == r.adjusted && r'.highWater == r.highWater && r'.drawdown == r.drawdown
              && r'.baselineEquity == r.baselineEquity && r'.baselineFlows == r.baselineFlows
  {
    RunsStayNeutral(run, run', extra, known, tolerance);
  }
}
