/**
 The LLM gate over a whole scan: one outage costs one call, the LLM budget bounds native evaluations, and no
 native card is recorded without a validated JSON-true reply or at or after the first gate error.
 */
module GateLaws {
  import opened LlmGate
  import opened SendLoop

  function FailedCalls(log: seq<Entry>): nat {
    if log == [] then 0
    else FailedCalls(log[..|log| - 1]) + if log[|log| - 1].called && log[|log| - 1].errored then 1 else 0
  }

  function NativeEvaluations(log: seq<Entry>): nat {
    if log == [] then 0
    else NativeEvaluations(log[..|log| - 1]) + if log[|log| - 1].native && log[|log| - 1].evaluated then 1 else 0
  }

  /** No entry so far carries a gate error. */
  ghost predicate ErrorFree(log: seq<Entry>) {
    forall i :: 0 <= i < |log| ==> !log[i].errored
  }

  /** The reply of an attempt is a validated object whose raw `approved` is the JSON boolean true. */
  ghost predicate ApprovedByReply(desk: Desk, a: Attempt) {
    && a.evaluator.ReachesGate? && a.evaluator.reply.Parsed?
    && RawApproval(a.evaluator.reply.payload, true) && desk.read(a.evaluator.reply.payload).Some?
  }

  /** What one iteration of an LLM scan adds to the log. */
  ghost predicate GateStep(desk: Desk, s: State, a: Attempt, t: State) {
    && |t.log| == |s.log| + 1 && t.log[..|s.log|] == s.log
    && var e := t.log[|s.log|];
       && e.native == a.Native()
       && (t.breaker <==> s.breaker || e.errored)
       && (e.called ==> !s.breaker)
       && (s.breaker && e.native ==> !e.outcome.Sent?)
       && (e.native && e.outcome.Sent? ==> !e.errored && ApprovedByReply(desk, a))
       && t.llmBudget == s.llmBudget - (if e.native && e.evaluated then 1 else 0)
       && (e.native && e.evaluated ==> s.llmBudget > 0)
  }

  lemma EvaluateLaws(desk: Desk, scan: Scan, native: bool, breaker: bool, e: Evaluator)
    requires scan.useLlm
    ensures var ev := Evaluate(desk, scan, native, breaker, e);
            ev.Evaluated? ==>
              && (ev.called ==> !breaker)
              && (native && ev.approved && !ev.errored ==>
                    && !breaker && e.ReachesGate? && e.reply.Parsed? && RawApproval(e.reply.payload, true)
                       && desk.read(e.reply.payload).Some?)
  {
    if e.ReachesGate? {
      OnlyRawTrueApproves(e.reply, desk.read);
    }
  }

  /** What an evaluation must satisfy for the iteration to be a gate step. */
  ghost predicate SoundEvaluation(desk: Desk, s: State, a: Attempt, ev: Evaluation) {
    ev.Evaluated? ==>
      && (ev.called ==> !s.breaker)
      && (a.Native() && ev.approved && !ev.errored ==> !s.breaker && ApprovedByReply(desk, a))
  }

  lemma EvaluationIsGateStep(desk: Desk, scan: Scan, s: State, a: Attempt, ev: Evaluation)
    requires scan.useLlm && SoundEvaluation(desk, s, a, ev) && (a.Native() ==> s.llmBudget > 0)
    ensures GateStep(desk, s, a, WithEvaluation(desk, scan, s, a, ev))
  {
  }

  lemma StepIsGateStep(desk: Desk, scan: Scan, s: State, a: Attempt)
    requires scan.useLlm
    ensures GateStep(desk, s, a, SendStep(desk, scan, s, a))
  {
    if Precheck(desk, scan, s, a).Proceed? {
      EvaluateLaws(desk, scan, a.Native(), s.breaker, a.evaluator);
      EvaluationIsGateStep(desk, scan, s, a, Evaluate(desk, scan, a.Native(), s.breaker, a.evaluator));
    }
  }

  /** The gate's bookkeeping over a log. */
  ghost predicate GateLedger(desk: Desk, ranked: seq<Attempt>, s: State, budget: int) {
    && |s.log| == |ranked|
    && (s.breaker <==> !ErrorFree(s.log))
    && FailedCalls(s.log) <= (if s.breaker then 1 else 0)
    && s.llmBudget + NativeEvaluations(s.log) == budget && NativeEvaluations(s.log) <= Max0(budget)
    && (forall i :: 0 <= i < |ranked| && s.log[i].native && s.log[i].outcome.Sent? ==>
          ErrorFree(s.log[..i + 1]) && ApprovedByReply(desk, ranked[i]))
    && (forall i :: 0 <= i < |ranked| ==> s.log[i].native == ranked[i].Native())
  }

  lemma GateStepKeepsLedger(desk: Desk, ranked: seq<Attempt>, s: State, a: Attempt, t: State, budget: int)
    requires GateLedger(desk, ranked, s, budget) && GateStep(desk, s, a, t)
    ensures GateLedger(desk, ranked + [a], t, budget)
  {
    var e := t.log[|s.log|];
    assert t.log == s.log + [e];
    assert t.log[..|t.log| - 1] == s.log;
    forall i | 0 <= i < |ranked + [a]| && t.log[i].native && t.log[i].outcome.Sent?
      ensures ErrorFree(t.log[..i + 1]) && ApprovedByReply(desk, (ranked + [a])[i])
    {
      if i < |ranked| {
        assert t.log[..i + 1] == s.log[..i + 1];
      } else {
        assert t.log[..i + 1] == t.log;
      }
    }
  }

  /**
   Over every LLM scan: at most one gate call errors; native evaluations never exceed the LLM budget; and a native
   card is recorded only if its reply validated with the raw JSON boolean true and no gate error, its own or an
   earlier one, had happened.
   */
  lemma {:induction false} GateHoldsOverScan(desk: Desk, scan: Scan, rows: seq<Row>, exposure: real, n: nat,
                                             ranked: seq<Attempt>)
    requires scan.useLlm
    ensures GateLedger(desk, ranked, SendAll(desk, scan, Begin(desk, scan, rows, exposure, n), ranked), desk.maxLlm)
  {
    if ranked != [] {
      var init, a := ranked[..|ranked| - 1], ranked[|ranked| - 1];
      GateHoldsOverScan(desk, scan, rows, exposure, n, init);
      var s := SendAll(desk, scan, Begin(desk, scan, rows, exposure, n), init);
      StepIsGateStep(desk, scan, s, a);
      GateStepKeepsLedger(desk, init, s, a, SendStep(desk, scan, s, a), desk.maxLlm);
      assert init + [a] == ranked;
    }
  }
}
