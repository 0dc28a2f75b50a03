/**
 Which candidates a scan sends, and why each of the others is not sent, on the raw fields of the candidate, the scan and
 the budgets.
 */
module SendDecisions {
  import opened LlmGate
  import opened SendLoop
  import opened SendLaws

  predicate IsNative(a: Attempt) {
    a.candidate.source.None?
  }

  /** A watch source's candidate on a contract this scan has carded. */
  predicate RepeatsWatch(desk: Desk, s: State, a: Attempt) {
    && a.candidate.source.Some? && a.candidate.source.value in desk.watchSources
    && desk.normalize(a.candidate.contract) in s.carded
  }

  predicate SourceSpent(s: State, a: Attempt) {
    && a.candidate.source.Some?
    && (a.candidate.source.value !in s.sourceRemaining || s.sourceRemaining[a.candidate.source.value] <= 0)
  }

  predicate DynamicName(scan: Scan, a: Attempt) {
    IsNative(a) && a.candidate.contract in scan.dynamic
  }

  /** The candidate must respect the cap of the group. */
  predicate Respects(desk: Desk, scan: Scan, a: Attempt, group: string) {
    if scan.budget == NoBudget then group == "dynamic" && scan.operatorDynamic && DynamicName(scan, a)
    else group in desk.groups(a.candidate.contract) || (group == "dynamic" && DynamicName(scan, a))
  }

  predicate AtCap(desk: Desk, s: State, group: string) {
    desk.maxPerGroup <= if group in s.groupsUsed then s.groupsUsed[group] else 0
  }

  ghost predicate SomeGroupFull(desk: Desk, scan: Scan, s: State, a: Attempt) {
    exists g :: Respects(desk, scan, a, g) && AtCap(desk, s, g)
  }

  /** A JSON object whose `approved` is the boolean true. */
  predicate SaysYes(reply: Reply) {
    reply.Parsed? && "approved" in reply.payload && reply.payload["approved"] == Bool(true)
  }

  /** The gate gives no verdict: it is skipped, it raises, or its yes is not valid or cannot be applied. */
  predicate GateFails(desk: Desk, scan: Scan, s: State, a: Attempt)
    requires a.evaluator.ReachesGate?
  {
    || s.breaker || !scan.keyed || !a.evaluator.reply.Parsed?
    || (SaysYes(a.evaluator.reply) && (desk.read(a.evaluator.reply.payload).None? || a.evaluator.applyFails))
  }

  /** The outcome of a rank: the first of these conditions that holds decides it. */
  ghost predicate Explains(desk: Desk, scan: Scan, s: State, a: Attempt, outcome: Outcome) {
    if a.broadIndex then outcome == BroadIndexExcluded
    else if RepeatsWatch(desk, s, a) then outcome == CardedThisScan
    else if SourceSpent(s, a) then outcome == SourceBudgetSpent
    else if IsNative(a) && s.remainingScan <= 0 then outcome == ScanBudgetSpent
    else if IsNative(a) && s.remainingSession <= 0 then outcome == SessionBudgetSpent
    else if SomeGroupFull(desk, scan, s, a) then outcome == GroupFull
    else if IsNative(a) && scan.useLlm && s.llmBudget <= 0 then outcome == LlmBudgetSpent
    else if IsNative(a) && a.carried == Fails then outcome == Failed
    else if IsNative(a) && a.carried == Yes then outcome == LiveCardPending
    else if IsNative(a) && a.withheld then outcome == Withheld
    else if a.evaluator == Crashes then outcome == Failed
    else if a.evaluator == RejectsFirst then outcome == Rejected
    else if IsNative(a) && scan.useLlm && GateFails(desk, scan, s, a) then outcome == LlmUnavailable
    else if IsNative(a) && scan.useLlm && !SaysYes(a.evaluator.reply) then outcome == LlmVetoed
    else if IsNative(a) && a.book.BookFails? then outcome == Failed
    else if IsNative(a) && a.book.BookBlocks? then outcome == BookBlocked
    else if scan.dryRun then outcome == DryRun
    else if a.recordFails then outcome == Failed
    else outcome == Sent
  }

  lemma GroupFullIff(desk: Desk, scan: Scan, s: State, a: Attempt)
    ensures GroupIsFull(desk, scan, s, a.candidate) <==> SomeGroupFull(desk, scan, s, a)
  {
    var c := a.candidate;
    forall g ensures g in CappedGroups(desk, scan, c) <==> Respects(desk, scan, a, g) {
    }
    if g :| g in CappedGroups(desk, scan, c) && Get(s.groupsUsed, g) >= desk.maxPerGroup {
      assert Respects(desk, scan, a, g) && AtCap(desk, s, g);
    }
    if g :| Respects(desk, scan, a, g) && AtCap(desk, s, g) {
      assert g in CappedGroups(desk, scan, c);
    }
  }

  /** What the loop makes of an evaluation that was reached. */
  lemma VerdictExplained(desk: Desk, scan: Scan, s: State, a: Attempt)
    ensures var ev := Evaluate(desk, scan, a.Native(), s.breaker, a.evaluator);
            && (ev.Crashed? <==> a.evaluator == Crashes)
            && (ev.Evaluated? ==>
                  var o := Verdict(scan, a, ev).outcome;
                  if a.evaluator == RejectsFirst then o == Rejected
                  else if IsNative(a) && scan.useLlm && GateFails(desk, scan, s, a) then o == LlmUnavailable
                  else if IsNative(a) && scan.useLlm && !SaysYes(a.evaluator.reply) then o == LlmVetoed
                  else if IsNative(a) && a.book.BookFails? then o == Failed
                  else if IsNative(a) && a.book.BookBlocks? then o == BookBlocked
                  else if scan.dryRun then o == DryRun
                  else if a.recordFails then o == Failed
                  else o == Sent)
  {
    if a.evaluator.ReachesGate? {
      OnlyRawTrueApproves(a.evaluator.reply, desk.read);
    }
  }

  lemma EntryOfEvaluation(desk: Desk, scan: Scan, s: State, a: Attempt, ev: Evaluation)
    ensures var t := WithEvaluation(desk, scan, s, a, ev);
            && |t.log| == |s.log| + 1
            && t.log[|s.log|].outcome == if ev.Crashed? then Failed else Verdict(scan, a, ev).outcome
  {
  }

  /** Every iteration ends in the outcome its raw conditions give. */
  lemma OutcomeExplained(desk: Desk, scan: Scan, s: State, a: Attempt)
    ensures var t := SendStep(desk, scan, s, a);
            |t.log| == |s.log| + 1 && Explains(desk, scan, s, a, t.log[|s.log|].outcome)
  {
    GroupFullIff(desk, scan, s, a);
    if Precheck(desk, scan, s, a).Proceed? {
      VerdictExplained(desk, scan, s, a);
      EntryOfEvaluation(desk, scan, s, a, Evaluate(desk, scan, a.Native(), s.breaker, a.evaluator));
    }
  }

  /** The candidate's own budgets and groups are open. */
  ghost predicate BudgetsOpen(desk: Desk, scan: Scan, s: State, a: Attempt) {
    && !SourceSpent(s, a) && !SomeGroupFull(desk, scan, s, a)
    && (IsNative(a) ==> s.remainingScan > 0 && s.remainingSession > 0 && (scan.useLlm ==> s.llmBudget > 0))
  }

  /** The deterministic stages passed, and the gate approved where its verdict applies. */
  ghost predicate Cleared(desk: Desk, scan: Scan, s: State, a: Attempt) {
    && a.evaluator.ReachesGate?
    && (scan.useLlm && IsNative(a) ==>
          && !s.breaker && scan.keyed && SaysYes(a.evaluator.reply)
          && desk.read(a.evaluator.reply.payload).Some? && !a.evaluator.applyFails)
  }

  /** The iteration gets as far as the evaluator. */
  ghost predicate ReachesEvaluator(desk: Desk, scan: Scan, s: State, a: Attempt) {
    && !a.broadIndex && !RepeatsWatch(desk, s, a) && BudgetsOpen(desk, scan, s, a)
    && (IsNative(a) ==> a.carried == No && !a.withheld)
  }

  /** The dollars a card is recorded with: the size at the exposure so far, shrunk by the book for a native one. */
  function Dollars(s: State, a: Attempt): real {
    if IsNative(a) && a.book.BookSizes? then a.book.shrink(a.size(s.exposure)) else a.size(s.exposure)
  }

  /** The card an iteration records, and the count of every group. */
  ghost predicate Writes(desk: Desk, scan: Scan, s: State, a: Attempt, t: State) {
    var c := a.candidate;
    && t.rows == s.rows + [Row(c.contract, c.strategy, DynamicName(scan, a), Dollars(s, a))]
    && t.carded == s.carded + {desk.normalize(c.contract)}
    && (forall g :: Get(t.groupsUsed, g) == Get(s.groupsUsed, g) +
          if g in desk.groups(c.contract) || (g == "dynamic" && DynamicName(scan, a)) then 1 else 0)
  }

  lemma RecordWrites(desk: Desk, scan: Scan, s: State, a: Attempt)
    ensures Writes(desk, scan, s, a, Record(desk, scan, s, a, CardNotional(s, a)))
  {
  }

  /** What an iteration writes; the LLM budget and the breaker move for evaluations that are reached. */
  ghost predicate Leaves(desk: Desk, scan: Scan, s: State, a: Attempt, t: State) {
    && |t.log| == |s.log| + 1
    && (if t.log[|s.log|].outcome == Sent then Writes(desk, scan, s, a, t)
        else t.rows == s.rows && t.carded == s.carded)
    && t.llmBudget == (if IsNative(a) && scan.useLlm && ReachesEvaluator(desk, scan, s, a) then s.llmBudget - 1
                       else s.llmBudget)
    && (t.breaker <==> s.breaker || (ReachesEvaluator(desk, scan, s, a) && scan.useLlm && a.evaluator.ReachesGate? &&
                                     GateFails(desk, scan, s, a)))
  }

  lemma EvaluationLeaves(desk: Desk, scan: Scan, s: State, a: Attempt, ev: Evaluation)
    ensures var t := WithEvaluation(desk, scan, s, a, ev);
            && |t.log| == |s.log| + 1
            && (if t.log[|s.log|].outcome == Sent then Writes(desk, scan, s, a, t)
                else t.rows == s.rows && t.carded == s.carded)
            && t.llmBudget == (if IsNative(a) && scan.useLlm then s.llmBudget - 1 else s.llmBudget)
            && (t.breaker <==> s.breaker || (ev.Evaluated? && ev.errored))
  {
    if ev.Evaluated? {
      RecordWrites(desk, scan, Spent(scan, s, a).(breaker := s.breaker || ev.errored), a);
    }
  }

  lemma ErroredIff(desk: Desk, scan: Scan, s: State, a: Attempt)
    ensures var ev := Evaluate(desk, scan, a.Native(), s.breaker, a.evaluator);
            ev.Evaluated? && ev.errored <==>
              scan.useLlm && a.evaluator.ReachesGate? && GateFails(desk, scan, s, a)
  {
    if a.evaluator.ReachesGate? {
      OnlyRawTrueApproves(a.evaluator.reply, desk.read);
    }
  }

  lemma ProceedIff(desk: Desk, scan: Scan, s: State, a: Attempt)
    ensures Precheck(desk, scan, s, a).Proceed? <==> ReachesEvaluator(desk, scan, s, a)
  {
    GroupFullIff(desk, scan, s, a);
  }

  /** Every iteration leaves what its raw conditions say. */
  lemma StepLeaves(desk: Desk, scan: Scan, s: State, a: Attempt)
    ensures Leaves(desk, scan, s, a, SendStep(desk, scan, s, a))
  {
    ProceedIff(desk, scan, s, a);
    if Precheck(desk, scan, s, a).Proceed? {
      ErroredIff(desk, scan, s, a);
      EvaluationLeaves(desk, scan, s, a, Evaluate(desk, scan, a.Native(), s.breaker, a.evaluator));
    }
  }

  /** The gate is asked: the evaluator reaches it in an LLM scan with a key and the breaker closed. */
  ghost predicate AsksGate(desk: Desk, scan: Scan, s: State, a: Attempt) {
    ReachesEvaluator(desk, scan, s, a) && scan.useLlm && a.evaluator.ReachesGate? && !s.breaker && scan.keyed
  }

  /** What an iteration's log entry says beside its outcome. */
  ghost predicate Notes(desk: Desk, scan: Scan, s: State, a: Attempt, e: Entry) {
    && (e.native <==> IsNative(a)) && (e.evaluated <==> ReachesEvaluator(desk, scan, s, a))
    && (e.called <==> AsksGate(desk, scan, s, a))
    && (e.errored <==> ReachesEvaluator(desk, scan, s, a) && scan.useLlm && a.evaluator.ReachesGate? &&
                       GateFails(desk, scan, s, a))
    && (e.approvedRaw <==> AsksGate(desk, scan, s, a) && !GateFails(desk, scan, s, a) && SaysYes(a.evaluator.reply))
    && e.notional == if e.outcome == Sent then Dollars(s, a) else 0.0
  }

  lemma EvaluationNotes(desk: Desk, scan: Scan, s: State, a: Attempt, ev: Evaluation)
    ensures var t := WithEvaluation(desk, scan, s, a, ev);
            && |t.log| == |s.log| + 1
            && var e := t.log[|s.log|];
               && e.native == IsNative(a) && e.evaluated
               && e.called == (ev.Evaluated? && ev.called) && e.errored == (ev.Evaluated? && ev.errored)
               && e.approvedRaw == (ev.Evaluated? && ev.approvedRaw)
               && e.notional == if e.outcome == Sent then Dollars(s, a) else 0.0
  {
  }

  lemma EvaluationIs(desk: Desk, scan: Scan, s: State, a: Attempt)
    ensures var ev := Evaluate(desk, scan, a.Native(), s.breaker, a.evaluator);
            && (ev.Evaluated? && ev.called <==> scan.useLlm && a.evaluator.ReachesGate? && !s.breaker && scan.keyed)
            && (ev.Evaluated? && ev.approvedRaw <==>
                  && scan.useLlm && a.evaluator.ReachesGate? && !s.breaker && scan.keyed
                  && !GateFails(desk, scan, s, a) && SaysYes(a.evaluator.reply))
  {
    if a.evaluator.ReachesGate? {
      OnlyRawTrueApproves(a.evaluator.reply, desk.read);
    }
  }

  /** Every iteration logs one entry that says what happened. */
  lemma EntryNoted(desk: Desk, scan: Scan, s: State, a: Attempt)
    ensures var t := SendStep(desk, scan, s, a); |t.log| == |s.log| + 1 && Notes(desk, scan, s, a, t.log[|s.log|])
  {
    ProceedIff(desk, scan, s, a);
    if Precheck(desk, scan, s, a).Proceed? {
      ErroredIff(desk, scan, s, a);
      EvaluationIs(desk, scan, s, a);
      EvaluationNotes(desk, scan, s, a, Evaluate(desk, scan, a.Native(), s.breaker, a.evaluator));
    } else {
      RefusalNotes(desk, scan, s, a);
    }
  }

  lemma RefusalNotes(desk: Desk, scan: Scan, s: State, a: Attempt)
    requires !Precheck(desk, scan, s, a).Proceed?
    ensures var t := SendStep(desk, scan, s, a);
            |t.log| == |s.log| + 1 && (exists o :: o != Sent && t.log[|s.log|] == Skipped(o, a))
  {
  }

  /** A candidate is sent exactly when all of this holds of it. */
  lemma SentIff(desk: Desk, scan: Scan, s: State, a: Attempt)
    ensures var t := SendStep(desk, scan, s, a);
            |t.log| == |s.log| + 1
            && (t.log[|s.log|].outcome == Sent <==>
                  && !a.broadIndex && !RepeatsWatch(desk, s, a) && BudgetsOpen(desk, scan, s, a)
                  && (IsNative(a) ==> a.carried == No && !a.withheld && a.book.BookSizes?)
                  && Cleared(desk, scan, s, a) && !scan.dryRun && !a.recordFails)
  {
    OutcomeExplained(desk, scan, s, a);
  }

  ghost function Explainer(desk: Desk, scan: Scan): (State, Attempt, Outcome) -> bool {
    (s: State, a: Attempt, outcome: Outcome) => Explains(desk, scan, s, a, outcome)
  }

  /** The log of `t` is that of `s` and one more entry, whose outcome `why` gives. */
  ghost predicate AddsOne(why: (State, Attempt, Outcome) -> bool, s: State, a: Attempt, t: State) {
    && |t.log| == |s.log| + 1 && (forall k :: 0 <= k < |s.log| ==> t.log[k] == s.log[k])
    && why(s, a, t.log[|s.log|].outcome)
  }

  ghost predicate StepsAddOne(step: (State, Attempt) -> State, why: (State, Attempt, Outcome) -> bool) {
    forall s: State, a: Attempt :: AddsOne(why, s, a, step(s, a))
  }

  function Stepper(desk: Desk, scan: Scan): (State, Attempt) -> State {
    (s: State, a: Attempt) => SendStep(desk, scan, s, a)
  }

  function Through(step: (State, Attempt) -> State, s: State, ranked: seq<Attempt>): State {
    if ranked == [] then s else step(Through(step, s, ranked[..|ranked| - 1]), ranked[|ranked| - 1])
  }

  lemma {:induction false} SendAllIsThrough(desk: Desk, scan: Scan, s: State, ranked: seq<Attempt>)
    ensures SendAll(desk, scan, s, ranked) == Through(Stepper(desk, scan), s, ranked)
  {
    if ranked != [] {
      SendAllIsThrough(desk, scan, s, ranked[..|ranked| - 1]);
    }
  }

  lemma StepsExplained(desk: Desk, scan: Scan)
    ensures StepsAddOne(Stepper(desk, scan), Explainer(desk, scan))
  {
    forall s: State, a: Attempt ensures AddsOne(Explainer(desk, scan), s, a, SendStep(desk, scan, s, a)) {
      OutcomeExplained(desk, scan, s, a);
      StepRecordsOrNothing(desk, scan, s, a);
      LogKept(s.log, SendStep(desk, scan, s, a).log);
    }
  }

  lemma LogKept(before: seq<Entry>, after: seq<Entry>)
    requires |after| == |before| + 1 && after[..|before|] == before
    ensures forall k :: 0 <= k < |before| ==> after[k] == before[k]
  {
    forall k | 0 <= k < |before| ensures after[k] == before[k] {
      assert after[..|before|][k] == after[k];
    }
  }

  lemma {:induction false} ThroughLog(step: (State, Attempt) -> State, why: (State, Attempt, Outcome) -> bool, s: State,
                                      ranked: seq<Attempt>)
    requires StepsAddOne(step, why)
    ensures |Through(step, s, ranked).log| == |s.log| + |ranked|
  {
    if ranked != [] {
      ThroughLog(step, why, s, ranked[..|ranked| - 1]);
      assert AddsOne(why, Through(step, s, ranked[..|ranked| - 1]), ranked[|ranked| - 1], Through(step, s, ranked));
    }
  }

  lemma {:induction false} RankingBy(step: (State, Attempt) -> State, why: (State, Attempt, Outcome) -> bool, s: State,
                                     ranked: seq<Attempt>, i: nat)
    requires StepsAddOne(step, why) && i < |ranked|
    ensures var t := Through(step, s, ranked);
            && |t.log| == |s.log| + |ranked|
            && why(Through(step, s, ranked[..i]), ranked[i], t.log[|s.log| + i].outcome)
  {
    var n := |ranked| - 1;
    var init := ranked[..n];
    var u := Through(step, s, init);
    ThroughLog(step, why, s, init);
    assert AddsOne(why, u, ranked[n], Through(step, s, ranked));
    if i < n {
      RankingBy(step, why, s, init, i);
      assert init[..i] == ranked[..i];
    }
  }

  /**
   Through the whole ranking, each rank's outcome is the one its conditions give against what the earlier ones left.
   */
  lemma RankingExplained(desk: Desk, scan: Scan, s: State, ranked: seq<Attempt>)
    ensures var t := SendAll(desk, scan, s, ranked);
            |t.log| == |s.log| + |ranked| && forall i :: 0 <= i < |ranked| ==>
              Explains(desk, scan, SendAll(desk, scan, s, ranked[..i]), ranked[i], t.log[|s.log| + i].outcome)
  {
    StepsExplained(desk, scan);
    ThroughLog(Stepper(desk, scan), Explainer(desk, scan), s, ranked);
    SendAllIsThrough(desk, scan, s, ranked);
    forall i | 0 <= i < |ranked|
      ensures Explainer(desk, scan)(SendAll(desk, scan, s, ranked[..i]), ranked[i],
                                    SendAll(desk, scan, s, ranked).log[|s.log| + i].outcome)
    {
      RankingBy(Stepper(desk, scan), Explainer(desk, scan), s, ranked, i);
      SendAllIsThrough(desk, scan, s, ranked[..i]);
    }
  }
}
