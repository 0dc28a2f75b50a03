/**
 What every counter of the collect funnel is: the number of contracts, or of handled setups, of its kind.
 */
module FunnelCounts {
  import opened Common
  import opened Funnel

  function Count<T>(xs: seq<T>, kind: T -> bool): nat {
    if xs == [] then 0 else Count(xs[..|xs| - 1], kind) + if kind(xs[|xs| - 1]) then 1 else 0
  }

  lemma CountLast<T>(xs: seq<T>, x: T, kind: T -> bool)
    ensures Count(xs + [x], kind) == Count(xs, kind) + if kind(x) then 1 else 0
  {
    assert (xs + [x])[..|xs|] == xs;
  }

  lemma {:induction false} CountAppend<T>(xs: seq<T>, ys: seq<T>, kind: T -> bool)
    ensures Count(xs + ys, kind) == Count(xs, kind) + Count(ys, kind)
  {
    if ys == [] {
      assert xs + ys == xs;
    } else {
      var n := |ys| - 1;
      CountAppend(xs, ys[..n], kind);
      assert xs + ys == (xs + ys[..n]) + [ys[n]];
      CountLast(xs + ys[..n], ys[n], kind);
    }
  }

  function Entry(m: map<string, nat>, key: string): nat {
    if key in m then m[key] else 0
  }

  // Kinds of contracts and of setups.

  predicate ExcludedDynamic(k: Contract) { k.DynamicExcluded? }
  predicate NotFetched(k: Contract) { k.FetchFailed? }
  predicate TooShort(k: Contract) { k.Insufficient? }
  predicate Uncovered(k: Contract) { k.CoverageExcluded? }
  predicate WasScanned(k: Contract) { k.ScanRaises? || k.Scans? }

  /** The contract's own guard caught an error of the type, before or during its scan. */
  function FailsAs(errorType: string): Contract -> bool {
    (k: Contract) => k == GuardFires(errorType) || k == ScanRaises(errorType)
  }

  predicate IsAdmitted(s: Setup) { s.admission.Admitted? }
  predicate IsDuplicate(s: Setup) { s.admission.Duplicate? }
  predicate LacksRisk(s: Setup) { s.admission.NoAccountRisk? }
  predicate IsLost(s: Setup) { s.admission.Raises? }

  function OfStrategy(strategy: string): Setup -> bool {
    (s: Setup) => s.strategy == strategy
  }

  /** Rejected under the rule; a rejection without one is unclassified. */
  function RejectedUnder(rule: string): Setup -> bool {
    (s: Setup) =>
      || (s.admission == Rejected(Some(rule)) && rule != "")
      || (rule == "unclassified" && (s.admission == Rejected(None) || s.admission == Rejected(Some(""))))
  }

  function RaisesAs(errorType: string): Setup -> bool {
    (s: Setup) => s.admission == Raises(errorType)
  }

  /** A contract's setups up to and including the first that raises. */
  function Handled(setups: seq<Setup>): seq<Setup>
    decreases |setups|
  {
    if setups == [] then [] else [setups[0]] + if IsLost(setups[0]) then [] else Handled(setups[1..])
  }

  /** The handled setups of all scanned contracts, in order. */
  function AllHandled(contracts: seq<Contract>): seq<Setup> {
    if contracts == [] then []
    else
      var k := contracts[|contracts| - 1];
      AllHandled(contracts[..|contracts| - 1]) + if k.Scans? then Handled(k.setups) else []
  }

  // Setups.

  /** `d` counts the setups on top of `c`. */
  ghost predicate AddsSetups(c: Counts, handled: seq<Setup>, d: Counts) {
    && d.rawSetups == c.rawSetups + |handled|
    && d.admitted == c.admitted + Count(handled, IsAdmitted)
    && d.duplicates == c.duplicates + Count(handled, IsDuplicate)
    && d.accountRiskUnavailable == c.accountRiskUnavailable + Count(handled, LacksRisk)
    && d.lostToErrors == c.lostToErrors + Count(handled, IsLost)
  }

  ghost predicate AddsKeys(c: Counts, handled: seq<Setup>, d: Counts, key: string) {
    && Entry(d.rawByStrategy, key) == Entry(c.rawByStrategy, key) + Count(handled, OfStrategy(key))
    && Entry(d.rejectedByRule, key) == Entry(c.rejectedByRule, key) + Count(handled, RejectedUnder(key))
    && Entry(d.errors, key) == Entry(c.errors, key) + Count(handled, RaisesAs(key))
  }

  ghost predicate SameContracts(c: Counts, d: Counts) {
    && d.selected == c.selected && d.scanned == c.scanned && d.fetchFailed == c.fetchFailed
    && d.insufficient == c.insufficient && d.coverageExcluded == c.coverageExcluded
    && d.dynamicExcluded == c.dynamicExcluded
  }

  ghost predicate Adds(c: Counts, handled: seq<Setup>, d: Counts) {
    SameContracts(c, d) && AddsSetups(c, handled, d) && forall key :: AddsKeys(c, handled, d, key)
  }

  /** One setup handled by the loop, its exception included. */
  function Handle(c: Counts, s: Setup): Counts {
    var next := CountSetup(c, s);
    if IsLost(s) then next.(errors := Bump(next.errors, s.admission.errorType), lostToErrors := next.lostToErrors + 1)
    else next
  }

  lemma CountOne<T>(x: T, kind: T -> bool)
    ensures Count([x], kind) == if kind(x) then 1 else 0
  {
    CountLast([], x, kind);
  }

  lemma OneSetup(c: Counts, s: Setup)
    ensures Adds(c, [s], Handle(c, s))
  {
    CountOne(s, IsAdmitted);
    CountOne(s, IsDuplicate);
    CountOne(s, LacksRisk);
    CountOne(s, IsLost);
    forall key ensures AddsKeys(c, [s], Handle(c, s), key) {
      OneSetupKeys(c, s, key);
    }
  }

  lemma BumpEntry(m: map<string, nat>, bumped: string, key: string)
    ensures Entry(Bump(m, bumped), key) == Entry(m, key) + if key == bumped then 1 else 0
  {
  }

  lemma RuleIs(s: Setup, key: string)
    requires s.admission.Rejected?
    ensures RejectedUnder(key)(s) <==>
              key == if s.admission.rule.Some? && s.admission.rule.value != "" then s.admission.rule.value
                     else "unclassified"
  {
    if s.admission.rule.Some? {
      assert s.admission == Rejected(Some(key)) <==> s.admission.rule.value == key;
    }
  }

  lemma OneSetupKeys(c: Counts, s: Setup, key: string)
    ensures AddsKeys(c, [s], Handle(c, s), key)
  {
    CountOne(s, OfStrategy(key));
    CountOne(s, RejectedUnder(key));
    CountOne(s, RaisesAs(key));
    BumpEntry(c.rawByStrategy, s.strategy, key);
    match s.admission
    case Rejected(rule) =>
      RuleIs(s, key);
      BumpEntry(c.rejectedByRule, if rule.Some? && rule.value != "" then rule.value else "unclassified", key);
    case Raises(errorType) => BumpEntry(c.errors, errorType, key);
    case _ =>
  }

  lemma AddsBoth(c: Counts, xs: seq<Setup>, d: Counts, ys: seq<Setup>, e: Counts)
    requires Adds(c, xs, d) && Adds(d, ys, e)
    ensures Adds(c, xs + ys, e)
  {
    CountAppend(xs, ys, IsAdmitted);
    CountAppend(xs, ys, IsDuplicate);
    CountAppend(xs, ys, LacksRisk);
    CountAppend(xs, ys, IsLost);
    forall key ensures AddsKeys(c, xs + ys, e, key) {
      assert AddsKeys(c, xs, d, key) && AddsKeys(d, ys, e, key);
      CountAppend(xs, ys, OfStrategy(key));
      CountAppend(xs, ys, RejectedUnder(key));
      CountAppend(xs, ys, RaisesAs(key));
    }
  }

  lemma {:induction false} SetupsAdd(c: Counts, setups: seq<Setup>)
    ensures Adds(c, Handled(setups), CountSetups(c, setups))
    decreases |setups|
  {
    if setups != [] {
      var s := setups[0];
      OneSetup(c, s);
      if IsLost(s) {
        assert Handled(setups) == [s];
      } else {
        SetupsAdd(Handle(c, s), setups[1..]);
        AddsBoth(c, [s], Handle(c, s), Handled(setups[1..]), CountSetups(c, setups));
      }
    }
  }

  lemma SetupsAddNumbers(c: Counts, setups: seq<Setup>)
    ensures AddsSetups(c, Handled(setups), CountSetups(c, setups)) && SameContracts(c, CountSetups(c, setups))
  {
    SetupsAdd(c, setups);
  }

  lemma SetupsAddKey(c: Counts, setups: seq<Setup>, key: string)
    ensures AddsKeys(c, Handled(setups), CountSetups(c, setups), key)
  {
    SetupsAdd(c, setups);
  }

  // Contracts.

  ghost predicate ContractCounters(contracts: seq<Contract>, c: Counts) {
    && c.dynamicExcluded == Count(contracts, ExcludedDynamic)
    && c.fetchFailed == Count(contracts, NotFetched)
    && c.insufficient == Count(contracts, TooShort)
    && c.coverageExcluded == Count(contracts, Uncovered)
    && c.scanned == Count(contracts, WasScanned)
  }

  ghost predicate SetupCounters(handled: seq<Setup>, c: Counts) {
    && c.rawSetups == |handled|
    && c.admitted == Count(handled, IsAdmitted) && c.duplicates == Count(handled, IsDuplicate)
    && c.accountRiskUnavailable == Count(handled, LacksRisk) && c.lostToErrors == Count(handled, IsLost)
  }

  ghost predicate KeyCounters(contracts: seq<Contract>, handled: seq<Setup>, c: Counts, key: string) {
    && Entry(c.rawByStrategy, key) == Count(handled, OfStrategy(key))
    && Entry(c.rejectedByRule, key) == Count(handled, RejectedUnder(key))
    && Entry(c.errors, key) == Count(contracts, FailsAs(key)) + Count(handled, RaisesAs(key))
  }

  /** Every counter is the number of its contracts or setups, and every key's count the number of its own. */
  ghost predicate Counted(contracts: seq<Contract>, c: Counts) {
    && ContractCounters(contracts, c) && SetupCounters(AllHandled(contracts), c)
    && forall key :: KeyCounters(contracts, AllHandled(contracts), c, key)
  }

  lemma ContractKinds(contracts: seq<Contract>, k: Contract, c: Counts)
    requires ContractCounters(contracts, c)
    ensures ContractCounters(contracts + [k], CountContract(c, k))
  {
    CountLast(contracts, k, ExcludedDynamic);
    CountLast(contracts, k, NotFetched);
    CountLast(contracts, k, TooShort);
    CountLast(contracts, k, Uncovered);
    CountLast(contracts, k, WasScanned);
    if k.Scans? {
      SetupsAddNumbers(c.(scanned := c.scanned + 1), k.setups);
    }
  }

  lemma NextHandled(contracts: seq<Contract>, k: Contract)
    ensures k.Scans? ==> AllHandled(contracts + [k]) == AllHandled(contracts) + Handled(k.setups)
    ensures !k.Scans? ==> AllHandled(contracts + [k]) == AllHandled(contracts)
  {
    assert (contracts + [k])[..|contracts|] == contracts;
    assert AllHandled(contracts) + [] == AllHandled(contracts);
  }

  lemma SetupsAppend(xs: seq<Setup>, c: Counts, ys: seq<Setup>, d: Counts)
    requires SetupCounters(xs, c) && AddsSetups(c, ys, d)
    ensures SetupCounters(xs + ys, d)
  {
    CountAppend(xs, ys, IsAdmitted);
    CountAppend(xs, ys, IsDuplicate);
    CountAppend(xs, ys, LacksRisk);
    CountAppend(xs, ys, IsLost);
  }

  lemma NextSetups(contracts: seq<Contract>, k: Contract, c: Counts)
    requires SetupCounters(AllHandled(contracts), c)
    ensures SetupCounters(AllHandled(contracts + [k]), CountContract(c, k))
  {
    NextHandled(contracts, k);
    if k.Scans? {
      var before := c.(scanned := c.scanned + 1);
      SetupsAddNumbers(before, k.setups);
      SetupsAppend(AllHandled(contracts), before, Handled(k.setups), CountSetups(before, k.setups));
    }
  }

  lemma NextKeys(contracts: seq<Contract>, k: Contract, c: Counts, key: string)
    requires KeyCounters(contracts, AllHandled(contracts), c, key)
    ensures KeyCounters(contracts + [k], AllHandled(contracts + [k]), CountContract(c, k), key)
  {
    NextHandled(contracts, k);
    CountLast(contracts, k, FailsAs(key));
    match k
    case Scans(setups) => NextScanKeys(contracts, k, c, key);
    case GuardFires(e) => BumpEntry(c.errors, e, key);
    case ScanRaises(e) => BumpEntry(c.errors, e, key);
    case _ =>
  }

  lemma NextScanKeys(contracts: seq<Contract>, k: Contract, c: Counts, key: string)
    requires KeyCounters(contracts, AllHandled(contracts), c, key) && k.Scans?
    ensures KeyCounters(contracts + [k], AllHandled(contracts + [k]), CountContract(c, k), key)
  {
    NextHandled(contracts, k);
    CountLast(contracts, k, FailsAs(key));
    var before := c.(scanned := c.scanned + 1);
    SetupsAddKey(before, k.setups, key);
    var after := CountSetups(before, k.setups);
    KeysAppend(contracts, contracts + [k], AllHandled(contracts), before, Handled(k.setups), after, key);
  }

  lemma KeysAppend(contracts: seq<Contract>, more: seq<Contract>, xs: seq<Setup>, c: Counts, ys: seq<Setup>, d: Counts,
                   key: string)
    requires KeyCounters(contracts, xs, c, key) && AddsKeys(c, ys, d, key)
    requires Count(more, FailsAs(key)) == Count(contracts, FailsAs(key))
    ensures KeyCounters(more, xs + ys, d, key)
  {
    CountAppend(xs, ys, OfStrategy(key));
    CountAppend(xs, ys, RejectedUnder(key));
    CountAppend(xs, ys, RaisesAs(key));
  }

  lemma {:induction false} AllCounted(contracts: seq<Contract>, n: nat)
    ensures Counted(contracts, CountAll(NO_COUNTS.(selected := n), contracts))
  {
    if contracts != [] {
      var init, k := contracts[..|contracts| - 1], contracts[|contracts| - 1];
      AllCounted(init, n);
      var c := CountAll(NO_COUNTS.(selected := n), init);
      assert contracts == init + [k];
      ContractKinds(init, k, c);
      NextSetups(init, k, c);
      forall key ensures KeyCounters(contracts, AllHandled(contracts), CountContract(c, k), key) {
        assert KeyCounters(init, AllHandled(init), c, key);
        NextKeys(init, k, c, key);
      }
    }
  }

  /** Over any contracts, setups and exceptions, every counter of the funnel counts exactly its own kind. */
  lemma CountersAre(contracts: seq<Contract>)
    ensures Collected(contracts).selected == |contracts| && Counted(contracts, Collected(contracts))
  {
    AllCounted(contracts, |contracts|);
    ContractsKeepBalance(contracts, |contracts|);
  }
}
