/**
 The scan's collect funnel (`ScanFunnel` and the collect loop): where every selected contract and every native
 setup went, exceptions included.
 */
module Funnel {
  import opened Common
  import opened Sums

  /** What admission does with a setup; `Raises` is any exception while the setup is being handled. */
  datatype Admission = Admitted | Duplicate | NoAccountRisk | Rejected(rule: Option<string>) | Raises(errorType: string)

  datatype Setup = Setup(strategy: string, admission: Admission)

  /** What a selected contract meets on its way through collect. */
  datatype Contract =
    | DynamicExcluded
    | FetchFailed
    | GuardFires(errorType: string)
    | Insufficient
    | CoverageExcluded
    | ScanRaises(errorType: string)
    | Scans(setups: seq<Setup>)

  datatype Counts = Counts(
    selected: nat,
    scanned: nat,
    fetchFailed: nat,
    insufficient: nat,
    coverageExcluded: nat,
    dynamicExcluded: nat,
    rawSetups: nat,
    duplicates: nat,
    accountRiskUnavailable: nat,
    lostToErrors: int,
    admitted: nat,
    rawByStrategy: map<string, nat>,
    rejectedByRule: map<string, nat>,
    errors: map<string, nat>)

  const NO_COUNTS := Counts(0, 0, 0, 0, 0, 0, 0, 0, 0, 0, 0, map[], map[], map[])

  function Bump(m: map<string, nat>, key: string): map<string, nat> {
    m[key := (if key in m then m[key] else 0) + 1]
  }

  /** One setup counted; the caller counts a raised one as lost. */
  function CountSetup(c: Counts, s: Setup): Counts {
    var c := c.(rawSetups := c.rawSetups + 1, rawByStrategy := Bump(c.rawByStrategy, s.strategy));
    match s.admission
    case Admitted => c.(admitted := c.admitted + 1)
    case Duplicate => c.(duplicates := c.duplicates + 1)
    case NoAccountRisk => c.(accountRiskUnavailable := c.accountRiskUnavailable + 1)
    case Rejected(rule) => c.(rejectedByRule := Bump(c.rejectedByRule, if rule.Some? && rule.value != "" then rule.value
      else "unclassified"))
    case Raises(_) => c
  }

  /** Setups are handled in order up to and including the first that raises. */
  function CountSetups(c: Counts, setups: seq<Setup>): Counts
    decreases |setups|
  {
    if setups == [] then c
    else
      var next := CountSetup(c, setups[0]);
      if setups[0].admission.Raises? then
        next.(errors := Bump(next.errors, setups[0].admission.errorType), lostToErrors := next.lostToErrors + 1)
      else CountSetups(next, setups[1..])
  }

  function CountContract(c: Counts, k: Contract): Counts {
    match k
    case DynamicExcluded => c.(dynamicExcluded := c.dynamicExcluded + 1)
    case FetchFailed => c.(fetchFailed := c.fetchFailed + 1)
    case GuardFires(e) => c.(errors := Bump(c.errors, e))
    case Insufficient => c.(insufficient := c.insufficient + 1)
    case CoverageExcluded => c.(coverageExcluded := c.coverageExcluded + 1)
    case ScanRaises(e) => c.(scanned := c.scanned + 1, errors := Bump(c.errors, e))
    case Scans(setups) => CountSetups(c.(scanned := c.scanned + 1), setups)
  }

  function CountAll(c: Counts, contracts: seq<Contract>): Counts
    decreases |contracts|
  {
    if contracts == [] then c
    else CountContract(CountAll(c, contracts[..|contracts| - 1]), contracts[|contracts| - 1])
  }

  function Collected(contracts: seq<Contract>): Counts {
    CountAll(NO_COUNTS.(selected := |contracts|), contracts)
  }

  /** The mutable funnel and the collect loop over it. */
  class ScanFunnel {
    var counts: Counts

    constructor ()
      ensures counts == NO_COUNTS
    {
      counts := NO_COUNTS;
    }

    /** One contract's setups, with the guard's own two counters. */
    method ScanSetups(setups: seq<Setup>)
      modifies this
      ensures counts == CountSetups(old(counts), setups)
    {
      var iterated, classified := 0, 0;
      var i := 0;
      while i < |setups|
        invariant 0 <= i <= |setups| && iterated == classified == i
        invariant CountSetups(counts, setups[i..]) == CountSetups(old(counts), setups)
      {
        var s := setups[i];
        assert setups[i..][1..] == setups[i + 1..];
        iterated := iterated + 1;
        counts := CountSetup(counts, s);
        if s.admission.Raises? {
          counts := counts.(errors := Bump(counts.errors, s.admission.errorType), lostToErrors := counts.lostToErrors +
            (iterated - classified));
          return;
        }
        classified := classified + 1;
        i := i + 1;
      }
    }

    method Collect(contracts: seq<Contract>)
      requires counts == NO_COUNTS
      modifies this
      ensures counts == Collected(contracts)
    {
      counts := counts.(selected := |contracts|);
      ghost var start := counts;
      for i := 0 to |contracts|
        invariant counts == CountAll(start, contracts[..i])
      {
        assert contracts[..i + 1][..i] == contracts[..i];
        match contracts[i]
        case DynamicExcluded => counts := counts.(dynamicExcluded := counts.dynamicExcluded + 1);
        case FetchFailed => counts := counts.(fetchFailed := counts.fetchFailed + 1);
        case GuardFires(e) => counts := counts.(errors := Bump(counts.errors, e));
        case Insufficient => counts := counts.(insufficient := counts.insufficient + 1);
        case CoverageExcluded => counts := counts.(coverageExcluded := counts.coverageExcluded + 1);
        case ScanRaises(e) => counts := counts.(scanned := counts.scanned + 1, errors := Bump(counts.errors, e));
        case Scans(setups) =>
          counts := counts.(scanned := counts.scanned + 1);
          ScanSetups(setups);
      }
      assert contracts[..|contracts|] == contracts;
    }
  }

  // Conservation.

  function Weight(m: map<string, nat>): string -> real {
    key => if key in m then m[key] as real else 0.0
  }

  /** The total of a counter. */
  ghost function Total(m: map<string, nat>): real {
    SetSum(m.Keys, Weight(m))
  }

  lemma BumpAddsOne(m: map<string, nat>, key: string)
    ensures Total(Bump(m, key)) == Total(m) + 1.0
  {
    var after, others := Bump(m, key), m.Keys - {key};
    SetSumRemove(after.Keys, key, Weight(after));
    assert after.Keys - {key} == others;
    SetSumAgrees(others, Weight(after), Weight(m));
    if key in m {
      SetSumRemove(m.Keys, key, Weight(m));
    } else {
      assert others == m.Keys;
    }
  }

  /** Every iterated setup is somewhere. */
  ghost predicate SetupsBalance(c: Counts) {
    && c.rawSetups as real == c.duplicates as real + c.accountRiskUnavailable as real + Total(c.rejectedByRule) +
       c.admitted as real + c.lostToErrors as real
    && Total(c.rawByStrategy) == c.rawSetups as real
  }

  /** As `SetupsBalance`, with `pending` setups not yet classified. */
  ghost predicate BalancesWith(c: Counts, pending: int) {
    SetupsBalance(c.(lostToErrors := c.lostToErrors + pending))
  }

  lemma SetupBalances(c: Counts, s: Setup)
    requires SetupsBalance(c)
    ensures BalancesWith(CountSetup(c, s), if s.admission.Raises? then 1 else 0)
  {
    BumpAddsOne(c.rawByStrategy, s.strategy);
    if s.admission.Rejected? {
      BumpAddsOne(c.rejectedByRule, if s.admission.rule.Some?
        && s.admission.rule.value != "" then s.admission.rule.value else "unclassified");
    }
  }

  lemma {:induction false} SetupsKeepBalance(c: Counts, setups: seq<Setup>)
    requires SetupsBalance(c)
    ensures SetupsBalance(CountSetups(c, setups))
    decreases |setups|
  {
    if setups != [] {
      SetupBalances(c, setups[0]);
      if !setups[0].admission.Raises? {
        SetupsKeepBalance(CountSetup(c, setups[0]), setups[1..]);
      }
    }
  }

  /**
   Over any contracts, setups and exceptions, every iterated setup is a duplicate, lacks account risk, is rejected
   under some rule, is admitted or is lost to an error, and the per-strategy counts add up to the same number.
   */
  lemma {:induction false} SetupsAreConserved(contracts: seq<Contract>, n: nat)
    ensures SetupsBalance(CountAll(NO_COUNTS.(selected := n), contracts))
  {
    if contracts == [] {
      assert Total(map[]) == 0.0;
    } else {
      SetupsAreConserved(contracts[..|contracts| - 1], n);
      ContractBalances(CountAll(NO_COUNTS.(selected := n), contracts[..|contracts| - 1]), contracts[|contracts| - 1]);
    }
  }

  lemma ContractBalances(c: Counts, k: Contract)
    requires SetupsBalance(c)
    ensures SetupsBalance(CountContract(c, k))
  {
    if k.Scans? {
      SetupsKeepBalance(c.(scanned := c.scanned + 1), k.setups);
    }
  }

  /** Contracts whose guard fired before they were scanned, while they were, and in one of their setups. */
  function GuardsBefore(contracts: seq<Contract>): nat {
    if contracts == [] then 0
    else GuardsBefore(contracts[..|contracts| - 1]) + if contracts[|contracts| - 1].GuardFires? then 1 else 0
  }

  function SetupFailures(contracts: seq<Contract>): nat {
    if contracts == [] then 0
    else
      var k := contracts[|contracts| - 1];
      SetupFailures(contracts[..|contracts| - 1]) + if k.Scans? && SomeRaise(k.setups) then 1 else 0
  }

  function ScanFailures(contracts: seq<Contract>): nat {
    if contracts == [] then 0
    else ScanFailures(contracts[..|contracts| - 1]) + if contracts[|contracts| - 1].ScanRaises? then 1 else 0
  }

  predicate SomeRaise(setups: seq<Setup>) {
    exists i :: 0 <= i < |setups| && setups[i].admission.Raises?
  }

  lemma {:induction false} SetupsLeaveContracts(c: Counts, setups: seq<Setup>)
    ensures var d := CountSetups(c, setups);
            && d.selected == c.selected && d.scanned == c.scanned && d.fetchFailed == c.fetchFailed
               && d.insufficient == c.insufficient
            && d.coverageExcluded == c.coverageExcluded && d.dynamicExcluded == c.dynamicExcluded
            && d.lostToErrors == c.lostToErrors + (if SomeRaise(setups) then 1 else 0)
            && Total(d.errors) == Total(c.errors) + (if SomeRaise(setups) then 1.0 else 0.0)
    decreases |setups|
  {
    if setups != [] {
      var next := CountSetup(c, setups[0]);
      if setups[0].admission.Raises? {
        BumpAddsOne(next.errors, setups[0].admission.errorType);
      } else {
        SetupsLeaveContracts(next, setups[1..]);
        RaisesLater(setups);
      }
    }
  }

  lemma RaisesLater(setups: seq<Setup>)
    requires setups != [] && !setups[0].admission.Raises?
    ensures SomeRaise(setups) <==> SomeRaise(setups[1..])
  {
    if i :| 0 <= i < |setups| && setups[i].admission.Raises? {
      assert setups[1..][i - 1].admission.Raises?;
    }
    if i :| 0 <= i < |setups[1..]| && setups[1..][i].admission.Raises? {
      assert setups[i + 1].admission.Raises?;
    }
  }

  /** Where the contracts of a prefix are counted. */
  ghost predicate ContractsBalance(c: Counts, contracts: seq<Contract>) {
    && |contracts| == c.dynamicExcluded + c.fetchFailed + c.insufficient + c.coverageExcluded + c.scanned +
       GuardsBefore(contracts)
    && c.lostToErrors == SetupFailures(contracts)
    && Total(c.errors) == (GuardsBefore(contracts) + ScanFailures(contracts) + SetupFailures(contracts)) as real
  }

  lemma {:induction false} ContractsKeepBalance(contracts: seq<Contract>, n: nat)
    ensures ContractsBalance(CountAll(NO_COUNTS.(selected := n), contracts), contracts)
    ensures CountAll(NO_COUNTS.(selected := n), contracts).selected == n
  {
    if contracts == [] {
      assert Total(map[]) == 0.0;
    } else {
      var init, k := contracts[..|contracts| - 1], contracts[|contracts| - 1];
      ContractsKeepBalance(init, n);
      var c := CountAll(NO_COUNTS.(selected := n), init);
      match k
      case GuardFires(e) => BumpAddsOne(c.errors, e);
      case ScanRaises(e) => BumpAddsOne(c.errors, e);
      case Scans(setups) => SetupsLeaveContracts(c.(scanned := c.scanned + 1), setups);
      case _ =>
    }
  }

  /**
   The selected contracts split exactly among the gates, the scanned ones and the guards fired before scanning; a
   failing contract loses exactly the setup it was handling, so no more setups are lost than errors counted.
   */
  lemma ContractsAreConserved(contracts: seq<Contract>)
    ensures var c := Collected(contracts);
            && c.selected == c.dynamicExcluded + c.fetchFailed + c.insufficient + c.coverageExcluded + c.scanned +
               GuardsBefore(contracts)
            && c.lostToErrors == SetupFailures(contracts)
            && c.lostToErrors as real <= Total(c.errors)
            && Total(c.errors) == (GuardsBefore(contracts) + ScanFailures(contracts) + SetupFailures(contracts)) as real
  {
    ContractsKeepBalance(contracts, |contracts|);
  }
}
