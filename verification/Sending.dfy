/**
 The send loop as `run_scan` executes it: budgets in mutable variables, derived from today's cards by loops and charged
 card by card. Every method keeps the variables in step with the recorded cards.
 */
module Sending {
  import opened SendLoop
  import opened SendLaws
  import opened SendDecisions

  class Sender {
    const desk: Desk
    const scan: Scan
    var rows: seq<Row>
    var remainingScan: int
    var remainingSession: int
    var sourceRemaining: map<string, int>
    var groupsUsed: map<string, int>
    var llmBudget: int
    var breaker: bool
    var carded: set<string>
    var exposure: real
    var log: seq<Entry>

    ghost function Contents(): State
      reads this
    {
      State(rows, remainingScan, remainingSession, sourceRemaining, groupsUsed, llmBudget, breaker, carded, exposure,
            log)
    }

    /** A scan starts in step with today's cards, having sent nothing. */
    constructor (desk: Desk, scan: Scan, today: seq<Row>, exposure: real, ranked: nat)
      ensures this.desk == desk && this.scan == scan
      ensures Contents() == Begin(desk, scan, today, exposure, ranked)
      ensures scan.budget != NoBudget ==> Synced(desk, Contents())
      ensures scan.budget == Full ==> remainingScan == desk.maxPerScan
      ensures log == [] && rows == today
    {
      this.desk, this.scan, rows, this.exposure := desk, scan, today, exposure;
      remainingScan, remainingSession := ranked, ranked;
      sourceRemaining, groupsUsed := map[], map[];
      llmBudget, breaker, carded, log := desk.maxLlm, false, {}, [];
      new;
      if scan.budget == NoBudget {
        DeriveDynamic(ranked);
      } else {
        DeriveBudgets(ranked);
        BeginIsSynced(desk, scan, today, exposure, ranked);
      }
    }

    /** Nothing has happened yet. */
    ghost predicate Fresh(ranked: nat)
      reads this
    {
      && remainingScan == ranked && remainingSession == ranked && groupsUsed == map[]
      && llmBudget == desk.maxLlm && !breaker && carded == {} && log == []
    }

    /** Without a budget only an operator's dynamic names are counted. */
    method DeriveDynamic(ranked: nat)
      requires scan.budget == NoBudget && Fresh(ranked)
      modifies this`sourceRemaining, this`groupsUsed
      ensures Contents() == Begin(desk, scan, rows, exposure, ranked)
    {
      DeriveSources();
      if scan.operatorDynamic && !scan.dryRun {
        var dynamic := CountDynamic();
        groupsUsed := map[DYNAMIC := dynamic];
      }
    }

    /** What today's cards leave of every budget. */
    method DeriveBudgets(ranked: nat)
      requires scan.budget != NoBudget && Fresh(ranked)
      modifies this`remainingScan, this`remainingSession, this`sourceRemaining, this`groupsUsed
      ensures Contents() == Begin(desk, scan, rows, exposure, ranked)
    {
      var native := CountNative();
      remainingSession := Max0(desk.maxPerSession - native);
      DeriveSources();
      if scan.budget == Full {
        remainingScan := desk.maxPerScan;
      }
      DeriveGroups();
    }

    method CountNative() returns (n: nat)
      ensures n == NativeCount(desk, rows)
    {
      n := 0;
      for i := 0 to |rows|
        invariant n == NativeCount(desk, rows[..i])
      {
        assert rows[..i + 1][..i] == rows[..i];
        if rows[i].strategy !in desk.sourceCaps {
          n := n + 1;
        }
      }
      assert rows[..|rows|] == rows;
    }

    method CountSource(source: string) returns (n: nat)
      ensures n == SourceCount(rows, source)
    {
      n := 0;
      for i := 0 to |rows|
        invariant n == SourceCount(rows[..i], source)
      {
        assert rows[..i + 1][..i] == rows[..i];
        if rows[i].strategy == source {
          n := n + 1;
        }
      }
      assert rows[..|rows|] == rows;
    }

    method CountDynamic() returns (n: nat)
      ensures n == DynamicCount(desk, rows)
    {
      n := 0;
      for i := 0 to |rows|
        invariant n == DynamicCount(desk, rows[..i])
      {
        assert rows[..i + 1][..i] == rows[..i];
        if CountsAsDynamic(desk, rows[i]) {
          n := n + 1;
        }
      }
      assert rows[..|rows|] == rows;
    }

    /** Each catalog source's allowance: what its cards today leave of its cap, nothing without a budget. */
    method DeriveSources()
      modifies this`sourceRemaining
      ensures sourceRemaining == Begin(desk, scan, rows, exposure, 0).sourceRemaining
    {
      sourceRemaining := map[];
      var left := desk.sourceCaps.Keys;
      while left != {}
        invariant left <= desk.sourceCaps.Keys && sourceRemaining.Keys == desk.sourceCaps.Keys - left
        invariant forall id :: id in sourceRemaining ==>
                    sourceRemaining[id] == if scan.budget == NoBudget then 0
                      else Max0(desk.sourceCaps[id] - SourceCount(rows, id))
        decreases left
      {
        var id :| id in left;
        var n := CountSource(id);
        sourceRemaining := sourceRemaining[id := if scan.budget == NoBudget then 0 else Max0(desk.sourceCaps[id] - n)];
        left := left - {id};
      }
    }

    /** Every group of every card today counted. */
    method DeriveGroups()
      modifies this`groupsUsed
      ensures groupsUsed == CountGroups(desk, rows)
    {
      groupsUsed := map[];
      for i := 0 to |rows|
        invariant groupsUsed == CountGroups(desk, rows[..i])
      {
        assert rows[..i + 1][..i] == rows[..i];
        ChargeGroups(RowGroups(desk, rows[i]));
      }
      assert rows[..|rows|] == rows;
    }

    method ChargeGroups(groups: set<string>)
      modifies this`groupsUsed
      ensures groupsUsed == Charge(old(groupsUsed), groups)
    {
      var left := groups;
      ghost var done: set<string> := {};
      while left != {}
        invariant left !! done && left + done == groups && groupsUsed == Charge(old(groupsUsed), done)
        decreases left
      {
        var g :| g in left;
        groupsUsed := groupsUsed[g := Get(groupsUsed, g) + 1];
        left, done := left - {g}, done + {g};
      }
    }

    /** Recording a card and charging it. */
    method RecordCard(a: Attempt, notional: real)
      modifies this
      ensures Contents() == Record(desk, scan, old(Contents()), a, notional)
    {
      var c := a.candidate;
      rows := rows + [RowOf(scan, c, notional)];
      carded := carded + {desk.normalize(c.contract)};
      if c.source.Some? {
        sourceRemaining := sourceRemaining[c.source.value := Get(sourceRemaining, c.source.value) - 1];
      } else {
        remainingScan := remainingScan - 1;
        remainingSession := remainingSession - 1;
      }
      ChargeGroups(CardGroups(desk, scan, c));
      exposure := ExposureAfter(exposure, a, notional);
    }

    /** The rest of an iteration once the evaluation is in. */
    method Settle(a: Attempt, ev: Evaluation)
      requires ev.Evaluated?
      modifies this
      ensures Contents() == AfterEvaluation(desk, scan, old(Contents()), a, ev)
    {
      var entry := Verdict(scan, a, ev);
      if entry.outcome.Sent? {
        var sized := a.size(exposure);
        var notional := if a.Native() && a.book.BookSizes? then a.book.shrink(sized) else sized;
        RecordCard(a, notional);
        entry := entry.(notional := notional);
      }
      log := log + [entry];
    }

    /** The LLM budget, the breaker and the rest, once the evaluator has answered or raised. */
    method Conclude(a: Attempt, ev: Evaluation)
      modifies this
      ensures Contents() == WithEvaluation(desk, scan, old(Contents()), a, ev)
    {
      if scan.useLlm && a.Native() {
        llmBudget := llmBudget - 1;
      }
      if ev.Crashed? {
        log := log + [Skipped(Failed, a).(evaluated := true)];
      } else {
        if ev.errored {
          breaker := true;
        }
        Settle(a, ev);
      }
    }

    /** One guarded iteration. */
    method SendOne(a: Attempt)
      modifies this
      ensures Contents() == SendStep(desk, scan, old(Contents()), a)
      ensures RecordsOrNothing(desk, scan, old(Contents()), a, Contents())
      ensures Leaves(desk, scan, old(Contents()), a, Contents())
      ensures Explains(desk, scan, old(Contents()), a, log[|old(log)|].outcome)
      ensures Synced(desk, old(Contents())) && ProperCandidate(desk, a.candidate) ==> Synced(desk, Contents())
    {
      ghost var before := Contents();
      StepRecordsOrNothing(desk, scan, before, a);
      StepLeaves(desk, scan, before, a);
      OutcomeExplained(desk, scan, before, a);
      if Synced(desk, before) && ProperCandidate(desk, a.candidate) {
        StepKeepsSync(desk, scan, before, a);
      }
      var check := Precheck(desk, scan,
                            State(rows, remainingScan, remainingSession, sourceRemaining, groupsUsed, llmBudget,
                                  breaker, carded, exposure, log), a);
      assert check == Precheck(desk, scan, before, a);
      match check
      case Refuse(outcome) =>
        log := log + [Skipped(outcome, a)];
      case Raise =>
        log := log + [Skipped(Failed, a)];
      case Proceed =>
        var ev := Evaluate(desk, scan, a.Native(), breaker, a.evaluator);
        Conclude(a, ev);
    }

    /** The whole ranking: the counters stay in step with the cards, and no cap is passed. */
    method Send(ranked: seq<Attempt>)
      requires log == [] && Proper(desk, ranked)
      requires scan.budget != NoBudget ==> Synced(desk, Contents())
      modifies this
      ensures Contents() == SendAll(desk, scan, old(Contents()), ranked)
      ensures |log| == |ranked| && forall i :: 0 <= i < |ranked| ==>
                Explains(desk, scan, SendAll(desk, scan, old(Contents()), ranked[..i]), ranked[i], log[i].outcome)
      ensures remainingScan + NativeSent(log) == old(remainingScan)
      ensures scan.budget != NoBudget ==> Synced(desk, Contents()) && WithinCaps(desk, old(rows), rows)
    {
      ghost var start := Contents();
      for i := 0 to |ranked|
        invariant Contents() == SendAll(desk, scan, start, ranked[..i])
      {
        assert ranked[..i + 1][..i] == ranked[..i];
        SendOne(ranked[i]);
      }
      assert ranked[..|ranked|] == ranked;
      PerScanBudget(desk, scan, start, ranked);
      RankingExplained(desk, scan, start, ranked);
      if scan.budget != NoBudget {
        ScanKeepsBudgets(desk, scan, start, ranked);
      }
    }
  }
}
