/**
 Budgets over every scan and every session: whatever is ranked, refused, raised or restarted, the counters in
 memory are the counts of recorded cards, and no cap is passed.
 */
module SendLaws {
  import opened SendLoop

  /** A catalog candidate carries its source's strategy id, and no native one carries any source's. */
  ghost predicate ProperCandidate(desk: Desk, c: Candidate) {
    match c.source
    case None => c.strategy !in desk.sourceCaps
    case Some(id) => id in desk.sourceCaps && c.strategy == id
  }

  ghost predicate Proper(desk: Desk, ranked: seq<Attempt>) {
    forall a :: a in ranked ==> ProperCandidate(desk, a.candidate)
  }

  /** The step left every budget and the recorded cards alone. */
  ghost predicate Quiet(s: State, t: State) {
    && t.rows == s.rows && t.remainingScan == s.remainingScan && t.remainingSession == s.remainingSession
    && t.sourceRemaining == s.sourceRemaining && t.groupsUsed == s.groupsUsed && t.exposure == s.exposure
  }

  /** The budgets a candidate must have found open. */
  ghost predicate Allowed(desk: Desk, scan: Scan, s: State, a: Attempt) {
    && !GroupIsFull(desk, scan, s, a.candidate)
    && (if a.candidate.source.Some? then Get(s.sourceRemaining, a.candidate.source.value) > 0
        else s.remainingScan > 0 && s.remainingSession > 0)
  }

  /** The step recorded one card and charged it, with the budgets it had found open. */
  ghost predicate Carded(desk: Desk, scan: Scan, s: State, a: Attempt, t: State) {
    var c := a.candidate;
    && Allowed(desk, scan, s, a)
    && t.rows == s.rows + [RowOf(scan, c, CardNotional(s, a))]
    && t.groupsUsed == Charge(s.groupsUsed, CardGroups(desk, scan, c))
    && t.exposure == (if a.lateFailure then s.exposure else s.exposure + CardNotional(s, a))
    && (if c.source.Some? then
          && t.sourceRemaining == s.sourceRemaining[c.source.value := Get(s.sourceRemaining, c.source.value) - 1]
          && t.remainingScan == s.remainingScan && t.remainingSession == s.remainingSession
        else
          && t.sourceRemaining == s.sourceRemaining
          && t.remainingScan == s.remainingScan - 1 && t.remainingSession == s.remainingSession - 1)
  }

  /** `t` logs one more entry than `s`, and either records exactly one card or touches no budget. */
  ghost predicate RecordsOrNothing(desk: Desk, scan: Scan, s: State, a: Attempt, t: State) {
    && |t.log| == |s.log| + 1 && t.log[..|s.log|] == s.log && t.log[|s.log|].native == a.Native()
    && (if t.log[|s.log|].outcome.Sent? then Carded(desk, scan, s, a, t) && !scan.dryRun else Quiet(s, t))
  }

  /** An entry other than a sent card, on a state whose budgets are untouched. */
  lemma NotedNothing(desk: Desk, scan: Scan, s: State, a: Attempt, u: State, e: Entry)
    requires Quiet(s, u) && u.log == s.log && e.native == a.Native() && !e.outcome.Sent?
    ensures RecordsOrNothing(desk, scan, s, a, Note(u, e))
  {
  }

  /** A sent entry, on a state that records the card. */
  lemma NotedCard(desk: Desk, scan: Scan, s: State, a: Attempt, u: State, e: Entry)
    requires Carded(desk, scan, s, a, u) && u.log == s.log && e.native == a.Native() && e.outcome.Sent? && !scan.dryRun
    ensures RecordsOrNothing(desk, scan, s, a, Note(u, e))
  {
  }

  /** Recording charges what the budgets were before LLM budget was spent or the breaker opened. */
  lemma RecordIsCarded(desk: Desk, scan: Scan, s: State, a: Attempt, u: State)
    requires Allowed(desk, scan, s, a) && Quiet(s, u) && u.log == s.log
    ensures var t := Record(desk, scan, u, a, CardNotional(u, a)); Carded(desk, scan, s, a, t) && t.log == s.log
  {
    assert CardNotional(u, a) == CardNotional(s, a);
  }

  lemma EvaluatedRecordsOrNothing(desk: Desk, scan: Scan, s: State, a: Attempt, u: State, ev: Evaluation)
    requires ev.Evaluated? && Allowed(desk, scan, s, a) && Quiet(s, u) && u.log == s.log
    ensures RecordsOrNothing(desk, scan, s, a, AfterEvaluation(desk, scan, u, a, ev))
  {
    var e := Verdict(scan, a, ev);
    if e.outcome.Sent? {
      RecordIsCarded(desk, scan, s, a, u);
      NotedCard(desk, scan, s, a, Record(desk, scan, u, a, CardNotional(u, a)), e.(notional := CardNotional(u, a)));
    } else {
      NotedNothing(desk, scan, s, a, u, e);
    }
  }

  lemma AnyEvaluationRecordsOrNothing(desk: Desk, scan: Scan, s: State, a: Attempt, ev: Evaluation)
    requires Allowed(desk, scan, s, a)
    ensures RecordsOrNothing(desk, scan, s, a, WithEvaluation(desk, scan, s, a, ev))
  {
    var spent := Spent(scan, s, a);
    if ev.Evaluated? {
      EvaluatedRecordsOrNothing(desk, scan, s, a, spent.(breaker := s.breaker || ev.errored), ev);
    } else {
      NotedNothing(desk, scan, s, a, spent, Skipped(Failed, a).(evaluated := true));
    }
  }

  /** Each iteration logs one entry and either records exactly one card or touches no budget. */
  lemma StepRecordsOrNothing(desk: Desk, scan: Scan, s: State, a: Attempt)
    ensures RecordsOrNothing(desk, scan, s, a, SendStep(desk, scan, s, a))
  {
    match Precheck(desk, scan, s, a)
    case Refuse(outcome) =>
      RefusalsSendNothing(desk, scan, s, a);
      NotedNothing(desk, scan, s, a, s, Skipped(outcome, a));
    case Raise => NotedNothing(desk, scan, s, a, s, Skipped(Failed, a));
    case Proceed =>
      ProceedIsAllowed(desk, scan, s, a);
      AnyEvaluationRecordsOrNothing(desk, scan, s, a, Evaluate(desk, scan, a.Native(), s.breaker, a.evaluator));
  }

  lemma ProceedIsAllowed(desk: Desk, scan: Scan, s: State, a: Attempt)
    requires Precheck(desk, scan, s, a).Proceed?
    ensures Allowed(desk, scan, s, a)
  {
  }

  lemma RefusalsSendNothing(desk: Desk, scan: Scan, s: State, a: Attempt)
    requires Precheck(desk, scan, s, a).Refuse?
    ensures !Precheck(desk, scan, s, a).outcome.Sent?
  {
  }

  // The in-memory counters are the counts of recorded cards.

  ghost predicate Synced(desk: Desk, s: State) {
    && s.remainingSession == Max0(desk.maxPerSession - NativeCount(desk, s.rows))
    && s.sourceRemaining.Keys == desk.sourceCaps.Keys
    && (forall id :: id in desk.sourceCaps ==>
           s.sourceRemaining[id] == Max0(desk.sourceCaps[id] - SourceCount(s.rows, id)))
    && (forall g :: Get(s.groupsUsed, g) == GroupCount(desk, s.rows, g))
  }

  lemma ChargeCounts(used: map<string, int>, groups: set<string>, g: string)
    ensures Get(Charge(used, groups), g) == Get(used, g) + if g in groups then 1 else 0
  {
  }

  lemma {:induction false} CountGroupsCounts(desk: Desk, rows: seq<Row>, g: string)
    ensures Get(CountGroups(desk, rows), g) == GroupCount(desk, rows, g)
  {
    if rows != [] {
      CountGroupsCounts(desk, rows[..|rows| - 1], g);
      ChargeCounts(CountGroups(desk, rows[..|rows| - 1]), RowGroups(desk, rows[|rows| - 1]), g);
    }
  }

  lemma BeginIsSynced(desk: Desk, scan: Scan, rows: seq<Row>, exposure: real, ranked: nat)
    requires scan.budget != NoBudget
    ensures Synced(desk, Begin(desk, scan, rows, exposure, ranked))
  {
    forall g ensures Get(CountGroups(desk, rows), g) == GroupCount(desk, rows, g) {
      CountGroupsCounts(desk, rows, g);
    }
  }

  /** A recorded row is counted in exactly the groups its candidate was charged to. */
  lemma RowCountsAsCharged(desk: Desk, scan: Scan, c: Candidate, notional: real)
    requires ProperCandidate(desk, c)
    ensures RowGroups(desk, RowOf(scan, c, notional)) == CardGroups(desk, scan, c)
  {
  }

  lemma AppendCounts(desk: Desk, rows: seq<Row>, row: Row)
    ensures NativeCount(desk, rows + [row]) == NativeCount(desk, rows) + if row.strategy in desk.sourceCaps then 0
            else 1
    ensures forall id :: SourceCount(rows + [row], id) == SourceCount(rows, id) + if row.strategy == id then 1 else 0
    ensures forall g ::
              GroupCount(desk, rows + [row], g) == GroupCount(desk, rows, g) +
                if g in RowGroups(desk, row) then 1 else 0
    ensures DynamicCount(desk, rows + [row]) == DynamicCount(desk, rows) + if CountsAsDynamic(desk, row) then 1 else 0
  {
    assert (rows + [row])[..|rows|] == rows;
  }

  lemma StepKeepsSync(desk: Desk, scan: Scan, s: State, a: Attempt)
    requires Synced(desk, s) && ProperCandidate(desk, a.candidate)
    ensures Synced(desk, SendStep(desk, scan, s, a))
  {
    StepRecordsOrNothing(desk, scan, s, a);
    var t := SendStep(desk, scan, s, a);
    if t.log[|s.log|].outcome.Sent? {
      CardKeepsSync(desk, scan, s, a, t);
    }
  }

  lemma CardKeepsSync(desk: Desk, scan: Scan, s: State, a: Attempt, t: State)
    requires Synced(desk, s) && ProperCandidate(desk, a.candidate) && Carded(desk, scan, s, a, t)
    ensures Synced(desk, t)
  {
    var c := a.candidate;
    var row := RowOf(scan, c, CardNotional(s, a));
    AppendCounts(desk, s.rows, row);
    RowCountsAsCharged(desk, scan, c, row.notional);
    forall g ensures Get(t.groupsUsed, g) == GroupCount(desk, t.rows, g) {
      ChargeCounts(s.groupsUsed, CardGroups(desk, scan, c), g);
    }
  }

  /** The native, source and group counts of `after` are within their caps, or what they were in `before`. */
  ghost predicate WithinCaps(desk: Desk, before: seq<Row>, after: seq<Row>) {
    && AtMost(NativeCount(desk, after), desk.maxPerSession, NativeCount(desk, before))
    && (forall id :: id in desk.sourceCaps ==>
           AtMost(SourceCount(after, id), desk.sourceCaps[id], SourceCount(before, id)))
    && (forall g :: AtMost(GroupCount(desk, after, g), desk.maxPerGroup, GroupCount(desk, before, g)))
  }

  predicate AtMost(count: int, cap: int, start: int) {
    count <= cap || count <= start
  }

  lemma StepKeepsCaps(desk: Desk, scan: Scan, s: State, a: Attempt, before: seq<Row>)
    requires scan.budget != NoBudget && Synced(desk, s) && ProperCandidate(desk, a.candidate)
    requires WithinCaps(desk, before, s.rows)
    ensures WithinCaps(desk, before, SendStep(desk, scan, s, a).rows)
  {
    StepRecordsOrNothing(desk, scan, s, a);
    var t := SendStep(desk, scan, s, a);
    if t.log[|s.log|].outcome.Sent? {
      CardKeepsCaps(desk, scan, s, a, t, before);
    }
  }

  lemma CardKeepsCaps(desk: Desk, scan: Scan, s: State, a: Attempt, t: State, before: seq<Row>)
    requires scan.budget != NoBudget && Synced(desk, s) && ProperCandidate(desk, a.candidate)
    requires WithinCaps(desk, before, s.rows) && Carded(desk, scan, s, a, t)
    ensures WithinCaps(desk, before, t.rows)
  {
    var c := a.candidate;
    var row := RowOf(scan, c, CardNotional(s, a));
    AppendCounts(desk, s.rows, row);
    RowCountsAsCharged(desk, scan, c, row.notional);
    forall g ensures AtMost(GroupCount(desk, t.rows, g), desk.maxPerGroup, GroupCount(desk, before, g)) {
      assert AtMost(GroupCount(desk, s.rows, g), desk.maxPerGroup, GroupCount(desk, before, g));
      if g in CardGroups(desk, scan, c) {
        assert Get(s.groupsUsed, g) < desk.maxPerGroup;
      }
    }
  }

  /** Through the whole send loop the counters stay in step with the rows and no cap is passed. */
  lemma {:induction false} ScanKeepsBudgets(desk: Desk, scan: Scan, s: State, ranked: seq<Attempt>)
    requires scan.budget != NoBudget && Synced(desk, s) && Proper(desk, ranked)
    ensures var t := SendAll(desk, scan, s, ranked); Synced(desk, t) && WithinCaps(desk, s.rows, t.rows)
  {
    if ranked != [] {
      var init, a := ranked[..|ranked| - 1], ranked[|ranked| - 1];
      ScanKeepsBudgets(desk, scan, s, init);
      StepKeepsSync(desk, scan, SendAll(desk, scan, s, init), a);
      StepKeepsCaps(desk, scan, SendAll(desk, scan, s, init), a, s.rows);
    }
  }

  /**
   A restart at any point of a scan hands out nothing: the budgets a new scan derives are the ones in memory.
   */
  lemma RestartGrantsNothing(desk: Desk, scan: Scan, rows: seq<Row>, exposure: real, ranked: seq<Attempt>, n: nat,
                             next: Scan, exposure': real)
    requires scan.budget != NoBudget && next.budget != NoBudget && Proper(desk, ranked)
    ensures var s := SendAll(desk, scan, Begin(desk, scan, rows, exposure, n), ranked);
            var r := Begin(desk, next, s.rows, exposure', n);
            && r.remainingSession == s.remainingSession && r.sourceRemaining == s.sourceRemaining
            && forall g :: Get(r.groupsUsed, g) == Get(s.groupsUsed, g)
  {
    BeginIsSynced(desk, scan, rows, exposure, n);
    ScanKeepsBudgets(desk, scan, Begin(desk, scan, rows, exposure, n), ranked);
    var s := SendAll(desk, scan, Begin(desk, scan, rows, exposure, n), ranked);
    BeginIsSynced(desk, next, s.rows, exposure', n);
    SyncedStatesAgree(desk, s, Begin(desk, next, s.rows, exposure', n));
  }

  lemma SyncedStatesAgree(desk: Desk, s: State, r: State)
    requires Synced(desk, s) && Synced(desk, r) && r.rows == s.rows
    ensures r.remainingSession == s.remainingSession && r.sourceRemaining == s.sourceRemaining
    ensures forall g :: Get(r.groupsUsed, g) == Get(s.groupsUsed, g)
  {
    assert r.sourceRemaining.Keys == s.sourceRemaining.Keys;
    forall g ensures Get(r.groupsUsed, g) == Get(s.groupsUsed, g) {
      assert Get(s.groupsUsed, g) == GroupCount(desk, s.rows, g);
    }
  }

  /** One scan of a session; an interrupted one is a scan of the part it sent. */
  datatype Run = Run(scan: Scan, exposure: real, ranked: seq<Attempt>)

  ghost function SessionRows(desk: Desk, runs: seq<Run>): seq<Row> {
    if runs == [] then []
    else
      var r := runs[|runs| - 1];
      SendAll(desk, r.scan, Begin(desk, r.scan, SessionRows(desk, runs[..|runs| - 1]), r.exposure, |r.ranked|),
              r.ranked).rows
  }

  /**
   Over every sequence of full and session scans of a session, interrupted anywhere, the native session budget,
   each source's budget and each group's cap hold for the recorded cards.
   */
  lemma {:induction false} SessionBudgetsHold(desk: Desk, runs: seq<Run>)
    requires desk.maxPerSession >= 0 && desk.maxPerGroup >= 0 && forall id :: id in desk.sourceCaps ==>
               desk.sourceCaps[id] >= 0
    requires forall r :: r in runs ==> r.scan.budget != NoBudget && Proper(desk, r.ranked)
    ensures var rows := SessionRows(desk, runs);
            && NativeCount(desk, rows) <= desk.maxPerSession
            && (forall id :: id in desk.sourceCaps ==> SourceCount(rows, id) <= desk.sourceCaps[id])
            && (forall g :: GroupCount(desk, rows, g) <= desk.maxPerGroup)
  {
    if runs != [] {
      var r, before := runs[|runs| - 1], SessionRows(desk, runs[..|runs| - 1]);
      SessionBudgetsHold(desk, runs[..|runs| - 1]);
      var s := Begin(desk, r.scan, before, r.exposure, |r.ranked|);
      BeginIsSynced(desk, r.scan, before, r.exposure, |r.ranked|);
      ScanKeepsBudgets(desk, r.scan, s, r.ranked);
      var rows := SessionRows(desk, runs);
      forall g ensures GroupCount(desk, rows, g) <= desk.maxPerGroup {
        assert AtMost(GroupCount(desk, rows, g), desk.maxPerGroup, GroupCount(desk, before, g));
      }
    }
  }

  // The per-scan budget.

  function NativeSent(log: seq<Entry>): nat {
    if log == [] then 0
    else NativeSent(log[..|log| - 1]) + if log[|log| - 1].outcome.Sent? && log[|log| - 1].native then 1 else 0
  }

  lemma {:induction false} PerScanBudget(desk: Desk, scan: Scan, s: State, ranked: seq<Attempt>)
    requires s.log == []
    ensures var t := SendAll(desk, scan, s, ranked);
            && t.remainingScan + NativeSent(t.log) == s.remainingScan
            && NativeSent(t.log) <= Max0(s.remainingScan)
            && |t.log| == |ranked|
  {
    if ranked != [] {
      var init, a := ranked[..|ranked| - 1], ranked[|ranked| - 1];
      PerScanBudget(desk, scan, s, init);
      var u := SendAll(desk, scan, s, init);
      StepRecordsOrNothing(desk, scan, u, a);
      var t := SendStep(desk, scan, u, a);
      assert t.log[..|t.log| - 1] == u.log;
    }
  }

  /** A full scan sends at most its per-scan allowance of native cards. */
  lemma FullScanSendsAtMostItsAllowance(desk: Desk, scan: Scan, rows: seq<Row>, exposure: real, ranked: seq<Attempt>)
    requires scan.budget == Full
    ensures NativeSent(SendAll(desk, scan, Begin(desk, scan, rows, exposure, |ranked|),
                               ranked).log) <= Max0(desk.maxPerScan)
  {
    PerScanBudget(desk, scan, Begin(desk, scan, rows, exposure, |ranked|), ranked);
  }

  // The dynamic cap of an operator scan, which has no other budget.

  /** No fewer cards are counted for the dynamic group than were recorded on dynamic names. */
  ghost predicate DynamicCounted(desk: Desk, s: State) {
    DynamicCount(desk, s.rows) <= Get(s.groupsUsed, DYNAMIC)
  }

  lemma {:induction false} DynamicCapKept(desk: Desk, scan: Scan, s: State, ranked: seq<Attempt>)
    requires scan.budget == NoBudget && scan.operatorDynamic && DynamicCounted(desk, s) && Proper(desk, ranked)
    ensures var t := SendAll(desk, scan, s, ranked);
            DynamicCounted(desk, t) && AtMost(DynamicCount(desk, t.rows), desk.maxPerGroup, DynamicCount(desk, s.rows))
  {
    if ranked != [] {
      var init, a := ranked[..|ranked| - 1], ranked[|ranked| - 1];
      DynamicCapKept(desk, scan, s, init);
      var u := SendAll(desk, scan, s, init);
      StepRecordsOrNothing(desk, scan, u, a);
      var t := SendStep(desk, scan, u, a);
      if t.log[|u.log|].outcome.Sent? {
        DynamicCardKeepsCap(desk, scan, u, a, t);
      }
    }
  }

  /** A card on a dynamic name found the group open and is charged to it; any other leaves the count alone. */
  lemma DynamicCardKeepsCap(desk: Desk, scan: Scan, s: State, a: Attempt, t: State)
    requires scan.budget == NoBudget && scan.operatorDynamic && DynamicCounted(desk, s)
    requires ProperCandidate(desk, a.candidate) && Carded(desk, scan, s, a, t)
    ensures DynamicCounted(desk, t)
    ensures DynamicCount(desk, t.rows) <= desk.maxPerGroup || DynamicCount(desk, t.rows) == DynamicCount(desk, s.rows)
  {
    AppendCounts(desk, s.rows, RowOf(scan, a.candidate, CardNotional(s, a)));
    ChargeCounts(s.groupsUsed, CardGroups(desk, scan, a.candidate), DYNAMIC);
    if IsDynamic(scan, a.candidate) {
      assert DYNAMIC in CappedGroups(desk, scan, a.candidate);
    }
  }

  lemma {:induction false} DryRunRecordsNothing(desk: Desk, scan: Scan, s: State, ranked: seq<Attempt>)
    requires scan.dryRun
    ensures SendAll(desk, scan, s, ranked).rows == s.rows
  {
    if ranked != [] {
      var init := ranked[..|ranked| - 1];
      DryRunRecordsNothing(desk, scan, s, init);
      StepRecordsOrNothing(desk, scan, SendAll(desk, scan, s, init), ranked[|ranked| - 1]);
    }
  }

  /**
   An operator's scan on requested dynamic names has no other budget, yet never takes the session past the cap on
   dynamic cards, whatever the configured groups are called.
   */
  lemma OperatorScanKeepsDynamicCap(desk: Desk, scan: Scan, rows: seq<Row>, exposure: real, n: nat,
                                    ranked: seq<Attempt>)
    requires scan.budget == NoBudget && scan.operatorDynamic && Proper(desk, ranked)
    ensures var t := SendAll(desk, scan, Begin(desk, scan, rows, exposure, n), ranked);
            AtMost(DynamicCount(desk, t.rows), desk.maxPerGroup, DynamicCount(desk, rows))
  {
    if scan.dryRun {
      DryRunRecordsNothing(desk, scan, Begin(desk, scan, rows, exposure, n), ranked);
    } else {
      DynamicCapKept(desk, scan, Begin(desk, scan, rows, exposure, n), ranked);
    }
  }
}
