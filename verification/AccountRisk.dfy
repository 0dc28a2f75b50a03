/**
 The cash-flow-adjusted drawdown state machine (`accounting/risk.py`): a baseline, a high-water mark and an
 append-only transfer history advanced by reconciled checkpoints, with a durable invalid state.

 A fingerprint is the evidence it digests.
 */
module AccountRisk {
  import opened Common
  import opened Rounding
  import opened Ledger
  import opened LedgerLaws

  datatype Outcome<+T> = Ok(value: T) | Err(error: RiskError)

  datatype RiskError =
    | ImportFailed | AwaitingReconciliation | ReportInvalid | NotReady
    | SnapshotUnavailable | SnapshotInvalid | MisalignedTimes
    | FutureDated | WrongAccount
    | UnreadableTransfer | UnsupportedTransfer | MisdirectedTransfer
    | EvidenceInvalid | BaselineElsewhere | OutOfOrder | NonpositiveEquity
    | JournalsChanged | TransfersRevised
    | AwaitingBaseline | Mismatched | AmbiguousTime | Stale | BadMaxAge

  /** Revised or removed evidence makes the history invalid for good. */
  predicate Invalidates(e: RiskError) {
    e.JournalsChanged? || e.TransfersRevised?
  }

  datatype Evidence = Evidence(kind: string, amount: real, transactionTime: Option<string>, date: Option<string>)

  type Fingerprints = seq<(string, Evidence)>

  /** Strings in code-point order. */
  predicate LexLess(a: string, b: string) {
    if b == "" then false
    else if a == "" then true
    else if a[0] == b[0] then LexLess(a[1..], b[1..])
    else a[0] < b[0]
  }

  function InsertById(s: Fingerprints, p: (string, Evidence)): Fingerprints {
    if s == [] || LexLess(p.0, s[0].0) then [p] + s else [s[0]] + InsertById(s[1..], p)
  }

  /** `sorted`, on identities. */
  function SortById(s: Fingerprints): Fingerprints {
    if s == [] then [] else InsertById(SortById(s[..|s| - 1]), s[|s| - 1])
  }

  /** Strictly increasing, hence distinct, nonempty identities. */
  predicate ValidIds(s: Fingerprints) {
    && (forall i, j :: 0 <= i < j < |s| ==> LexLess(s[i].0, s[j].0))
    && (forall i :: 0 <= i < |s| ==> s[i].0 != "")
  }

  predicate DisjointIds(s: Fingerprints, t: Fingerprints) {
    forall i, j :: 0 <= i < |s| && 0 <= j < |t| ==> s[i].0 != t[j].0
  }

  /** `dict(s).get(id)`: the last entry wins. */
  function Lookup(s: Fingerprints, id: string): Option<Evidence> {
    if s == [] then None
    else if s[|s| - 1].0 == id then Some(s[|s| - 1].1)
    else Lookup(s[..|s| - 1], id)
  }

  datatype RiskSnapshot = RiskSnapshot(
    accountId: string,
    baselineObservedAt: int,
    baselineEquity: real,
    baselineFlows: real,
    observedAt: int,
    equity: real,
    flows: real,
    adjusted: real,
    highWater: real,
    drawdown: real,
    transfers: Fingerprints,
    journals: Fingerprints)
  {
    /** The model's own validator, field constraints included. */
    predicate Consistent() {
      && accountId != "" && baselineEquity > 0.0 && highWater > 0.0 && drawdown >= 0.0
      && observedAt >= baselineObservedAt
      && adjusted == equity - (flows - baselineFlows)
      && highWater >= Max(baselineEquity, adjusted)
      && drawdown == Max(0.0, (highWater - adjusted) / highWater)
      && ValidIds(transfers) && ValidIds(journals) && DisjointIds(transfers, journals)
    }
  }

  /** Cash transfers seen so far: their total without journals, and both evidence lists in arrival order. */
  datatype History = History(total: real, transfers: Fingerprints, journals: Fingerprints)

  function EvidenceOf(a: Activity, amount: real): Evidence
    requires a.kind.Some?
  {
    Evidence(a.kind.value, amount, a.transactionTime, a.date)
  }

  predicate IsCashTransfer(a: Activity) {
    a.kind.Some? && a.kind.value in CASH_TRANSFERS
  }

  function AddTransfer(h: History, a: Activity): Outcome<History> {
    if !IsCashTransfer(a) then Ok(h)
    else if !a.netAmount.Num? then Err(UnreadableTransfer)
    else if (a.status.Some? && a.status.value != "executed") || a.qty.Unreadable?
      || (a.qty.Num? && a.qty.value != 0.0) then
      Err(UnsupportedTransfer)
    else
      var kind, amount := a.kind.value, a.netAmount.value;
      if (kind == "CSD" && amount < 0.0) || (kind == "CSW" && amount > 0.0) then Err(MisdirectedTransfer)
      else if a.id.None? then Err(UnreadableTransfer)
      else
        var entry := (a.id.value, EvidenceOf(a, amount));
        if kind == "JNLC" then Ok(h.(journals := h.journals + [entry]))
        else Ok(h.(total := h.total + amount, transfers := h.transfers + [entry]))
  }

  function CashHistory(activities: seq<Activity>): Outcome<History> {
    if activities == [] then Ok(History(0.0, [], []))
    else
      var before := CashHistory(activities[..|activities| - 1]);
      if before.Err? then before else AddTransfer(before.value, activities[|activities| - 1])
  }

  /** `_cash_history`: stops at the first transfer it cannot accept, sorts both lists at the end. */
  method CollectCashHistory(activities: seq<Activity>) returns (r: Outcome<History>)
    ensures r.Err? <==> CashHistory(activities).Err?
    ensures r.Err? ==> r == CashHistory(activities)
    ensures r.Ok? ==> var h := CashHistory(activities).value;
                      r.value == History(h.total, SortById(h.transfers), SortById(h.journals))
  {
    var h := History(0.0, [], []);
    for i := 0 to |activities|
      invariant CashHistory(activities[..i]) == Ok(h)
    {
      assert activities[..i + 1][..i] == activities[..i];
      var next := AddTransfer(h, activities[i]);
      if next.Err? {
        FirstErrorStands(activities, i + 1);
        return next;
      }
      h := next.value;
    }
    assert activities[..|activities|] == activities;
    r := Ok(History(h.total, SortById(h.transfers), SortById(h.journals)));
  }

  lemma {:induction false} FirstErrorStands(activities: seq<Activity>, n: nat)
    requires n <= |activities| && CashHistory(activities[..n]).Err?
    ensures CashHistory(activities) == CashHistory(activities[..n])
  {
    if n == |activities| {
      assert activities[..n] == activities;
    } else {
      var init := activities[..|activities| - 1];
      assert init[..n] == activities[..n];
      FirstErrorStands(init, n);
    }
  }

  /** A stored document: absent, unreadable, or read. */
  datatype Doc<+T> = Missing | Malformed | Doc(value: T)

  datatype Checkpoint = Checkpoint(importError: bool, report: Doc<LedgerReport>, snapshot: Doc<AccountSnapshot>)

  function ValidatedCheckpoint(cp: Checkpoint): Outcome<AccountSnapshot> {
    if cp.importError then Err(ImportFailed)
    else if cp.report.Missing? then Err(AwaitingReconciliation)
    else if cp.report.Malformed? then Err(ReportInvalid)
    else if !cp.report.value.Ready() then Err(NotReady)
    else if cp.snapshot.Missing? then Err(SnapshotUnavailable)
    else if cp.snapshot.Malformed? || cp.snapshot.value.accountId == "" then Err(SnapshotInvalid)
    else if cp.snapshot.value.observedAt.Naive?
      || cp.report.value.observedAt != cp.snapshot.value.observedAt then Err(MisalignedTimes)
    else Ok(cp.snapshot.value)
  }

  function StoredRisk(risk: Doc<RiskSnapshot>): Outcome<RiskSnapshot> {
    if risk.Missing? then Err(AwaitingBaseline)
    else if risk.Malformed? || !risk.value.Consistent() then Err(EvidenceInvalid)
    else Ok(risk.value)
  }

  /** The checks against the stored risk. */
  function PriorRefusal(prior: RiskSnapshot, snapshot: AccountSnapshot, h: History,
                        accountId: string): Option<RiskError> {
    if prior.accountId != accountId then Some(BaselineElsewhere)
    else if snapshot.observedAt.micros < prior.observedAt then Some(OutOfOrder)
    else if SortById(h.journals) != prior.journals then Some(JournalsChanged)
    else if exists i ::
      0 <= i < |prior.transfers| && Lookup(SortById(h.transfers), prior.transfers[i].0) != Some(prior.transfers[i].1)
    then
      Some(TransfersRevised)
    else None
  }

  function Drawdown(highWater: real, adjusted: real): real
    requires highWater != 0.0
  {
    Max(0.0, (highWater - adjusted) / highWater)
  }

  /** The first snapshot of a history: everything observed so far is the baseline. */
  function Seed(snapshot: AccountSnapshot, equity: real, h: History, accountId: string): RiskSnapshot
    requires equity > 0.0
  {
    var at := snapshot.observedAt.micros;
    RiskSnapshot(accountId, at, equity, h.total, at, equity, h.total, equity, equity, Drawdown(equity, equity),
                 SortById(h.transfers), SortById(h.journals))
  }

  /** The next snapshot on a prior one: transfers since the baseline are taken out of equity. */
  function Next(prior: RiskSnapshot, snapshot: AccountSnapshot, equity: real, h: History): RiskSnapshot
    requires prior.highWater > 0.0
  {
    var adjusted := equity - (h.total - prior.baselineFlows);
    var highWater := Max(prior.highWater, adjusted);
    prior.(observedAt := snapshot.observedAt.micros, equity := equity, flows := h.total, adjusted := adjusted,
           highWater := highWater, drawdown := Drawdown(highWater, adjusted), transfers := SortById(h.transfers))
  }

  function Validated(risk: RiskSnapshot): Outcome<RiskSnapshot> {
    if risk.Consistent() then Ok(risk) else Err(EvidenceInvalid)
  }

  /** The guarded body of `advance_risk_checkpoint`. */
  ghost function Derive(stored: Doc<RiskSnapshot>, cp: Checkpoint, activities: seq<Activity>, accountId: string,
                        now: Moment): Outcome<RiskSnapshot> {
    var valid := ValidatedCheckpoint(cp);
    if valid.Err? then Err(valid.error)
    else
      var snapshot := valid.value;
      if now.Naive? || snapshot.observedAt.micros > now.micros then Err(FutureDated)
      else if snapshot.accountId != accountId then Err(WrongAccount)
      else
        var history := CashHistory(activities);
        if history.Err? then Err(history.error)
        else if stored.Missing? then
          if Equity(snapshot) <= 0.0 then Err(NonpositiveEquity)
          else Validated(Seed(snapshot, Equity(snapshot), history.value, accountId))
        else
          var prior := StoredRisk(stored);
          if prior.Err? then Err(prior.error)
          else
            var refusal := PriorRefusal(prior.value, snapshot, history.value, accountId);
            if refusal.Some? then Err(refusal.value)
            else Validated(Next(prior.value, snapshot, Equity(snapshot), history.value))
  }

  datatype RiskFields = RiskFields(risk: Doc<RiskSnapshot>, error: Option<RiskError>, invalidation: Option<RiskError>)

  const NO_RISK := RiskFields(Missing, None, None)

  /** `advance_risk_checkpoint`. */
  ghost function Advance(previous: RiskFields, cp: Checkpoint, activities: seq<Activity>, accountId: string,
                         now: Moment): RiskFields {
    if previous.invalidation.Some? then previous.(error := previous.invalidation)
    else
      match Derive(previous.risk, cp, activities, accountId, now)
      case Ok(risk) => RiskFields(Doc(risk), None, None)
      case Err(e) => RiskFields(previous.risk, Some(e), if Invalidates(e) then Some(e) else None)
  }

  /** `require_risk_checkpoint` on the stored payload: the checkpoint's fields beside the risk fields. */
  ghost function Require(cp: Checkpoint, fields: RiskFields, maxAge: int, now: Moment): Outcome<RiskSnapshot> {
    if maxAge <= 0 then Err(BadMaxAge)
    else if fields.invalidation.Some? then Err(fields.invalidation.value)
    else if fields.error.Some? then Err(fields.error.value)
    else
      var valid := ValidatedCheckpoint(cp);
      if valid.Err? then Err(valid.error)
      else
        var stored := StoredRisk(fields.risk);
        if stored.Err? then stored
        else
          var risk, snapshot := stored.value, valid.value;
          if risk.accountId != snapshot.accountId || risk.observedAt != snapshot.observedAt.micros
            || risk.equity != Equity(snapshot) then
            Err(Mismatched)
          else if now.Naive? then Err(AmbiguousTime)
          else if !(0 <= now.micros - risk.observedAt <= maxAge) then Err(Stale)
          else Ok(risk)
  }

  /**
   Admission sees a snapshot exactly when the last advance accepted one that is fresh, and then exactly that
   one; it is consistent and describes the latest reconciled snapshot. Any rejected advance refuses admission.
   */
  lemma AdmissionSeesOnlyAccepted(previous: RiskFields, cp: Checkpoint, activities: seq<Activity>, accountId: string,
                                  now: Moment,
                                  maxAge: int, later: Moment)
    ensures var after := Advance(previous, cp, activities, accountId, now);
            var seen := Require(cp, after, maxAge, later);
            && (after.error.Some? ==> seen.Err?)
            && (after.error.None? ==>
                  && after.risk.Doc? && after.risk.value.Consistent()
                  && cp.snapshot.Doc? && after.risk.value.equity == Equity(cp.snapshot.value)
                  && (var at := after.risk.value.observedAt;
                      seen == Ok(after.risk.value) <==> maxAge > 0 && later.Aware? && at <= later.micros <= at + maxAge)
                  && (seen.Ok? ==> seen.value == after.risk.value))
  {
  }

  // Sorting keeps exactly the evidence, and distinct identities come out strictly increasing.

  lemma {:induction false} InsertKeeps(s: Fingerprints, p: (string, Evidence))
    ensures multiset(InsertById(s, p)) == multiset(s) + multiset{p}
  {
    if s == [] || LexLess(p.0, s[0].0) {
    } else {
      InsertKeeps(s[1..], p);
      assert s == [s[0]] + s[1..];
    }
  }

  lemma {:induction false} SortKeeps(s: Fingerprints)
    ensures multiset(SortById(s)) == multiset(s)
  {
    if s != [] {
      SortKeeps(s[..|s| - 1]);
      InsertKeeps(SortById(s[..|s| - 1]), s[|s| - 1]);
      assert s == s[..|s| - 1] + [s[|s| - 1]];
    }
  }

  lemma {:induction false} LexTotal(a: string, b: string)
    ensures a == b || LexLess(a, b) || LexLess(b, a)
    ensures !LexLess(a, a)
  {
    if a != "" && b != "" && a[0] == b[0] {
      LexTotal(a[1..], b[1..]);
      assert a == [a[0]] + a[1..] && b == [b[0]] + b[1..];
    } else if a != "" {
      LexTotal(a[1..], a[1..]);
    }
  }

  lemma {:induction false} LexTransitive(a: string, b: string, c: string)
    requires LexLess(a, b) && LexLess(b, c)
    ensures LexLess(a, c)
  {
    if a != "" && a[0] == b[0] && b[0] == c[0] {
      LexTransitive(a[1..], b[1..], c[1..]);
    }
  }

  lemma {:induction false} InsertValid(s: Fingerprints, p: (string, Evidence))
    requires ValidIds(s) && p.0 != "" && forall i :: 0 <= i < |s| ==> s[i].0 != p.0
    ensures ValidIds(InsertById(s, p))
  {
    if s == [] {
    } else if LexLess(p.0, s[0].0) {
      forall j | 0 <= j < |s| ensures LexLess(p.0, s[j].0) {
        if j > 0 {
          LexTransitive(p.0, s[0].0, s[j].0);
        }
      }
    } else {
      LexTotal(p.0, s[0].0);
      InsertValid(s[1..], p);
      InsertKeeps(s[1..], p);
      var t := InsertById(s[1..], p);
      forall j | 0 <= j < |t| ensures LexLess(s[0].0, t[j].0) {
        assert t[j] in multiset(s[1..]) + multiset{p};
        if t[j] != p {
          assert t[j] in s[1..];
        }
      }
    }
  }

  ghost predicate PlainIds(s: Fingerprints) {
    && (forall i, j :: 0 <= i < j < |s| ==> s[i].0 != s[j].0)
    && (forall i :: 0 <= i < |s| ==> s[i].0 != "")
  }

  lemma {:induction false} SortValid(s: Fingerprints)
    requires PlainIds(s)
    ensures ValidIds(SortById(s))
  {
    if s != [] {
      var init, p := s[..|s| - 1], s[|s| - 1];
      SortValid(init);
      SortKeeps(init);
      forall i | 0 <= i < |SortById(init)| ensures SortById(init)[i].0 != p.0 {
        assert SortById(init)[i] in multiset(init);
      }
      InsertValid(SortById(init), p);
    }
  }

  ghost function IdsOf(activities: seq<Activity>): set<string> {
    set a | a in activities && a.id.Some? :: a.id.value
  }

  /** Every entry carries an id of the list, each once over both lists. */
  ghost predicate Sourced(h: History, ids: set<string>) {
    && PlainIds(h.transfers) && PlainIds(h.journals) && DisjointIds(h.transfers, h.journals)
    && (forall i :: 0 <= i < |h.transfers| ==> h.transfers[i].0 in ids)
    && (forall i :: 0 <= i < |h.journals| ==> h.journals[i].0 in ids)
  }

  lemma AddSourced(h: History, ids: set<string>, a: Activity)
    requires Sourced(h, ids) && a.id.Some? && a.id.value != "" && a.id.value !in ids && AddTransfer(h, a).Ok?
    ensures Sourced(AddTransfer(h, a).value, ids + {a.id.value})
  {
  }

  lemma {:induction false} HistorySourced(activities: seq<Activity>)
    requires DistinctIds(activities) && forall a :: a in activities ==> a.id != Some("")
    requires CashHistory(activities).Ok?
    ensures Sourced(CashHistory(activities).value, IdsOf(activities))
  {
    if activities != [] {
      var init, a := activities[..|activities| - 1], activities[|activities| - 1];
      LastIdIsNew(activities);
      HistorySourced(init);
      if a.id.Some? {
        AddSourced(CashHistory(init).value, IdsOf(init), a);
      }
    }
  }

  lemma LastIdIsNew(activities: seq<Activity>)
    requires activities != [] && DistinctIds(activities) && forall a :: a in activities ==> a.id != Some("")
    ensures var init, a := activities[..|activities| - 1], activities[|activities| - 1];
            && DistinctIds(init) && (forall b :: b in init ==> b.id != Some(""))
            && a.id != Some("")
            && (a.id.Some? ==> a.id.value !in IdsOf(init) && IdsOf(activities) == IdsOf(init) + {a.id.value})
            && (a.id.None? ==> IdsOf(activities) == IdsOf(init))
  {
    var init, a := activities[..|activities| - 1], activities[|activities| - 1];
    assert activities == init + [a] && a in activities;
  }

  lemma SortedDisjoint(s: Fingerprints, t: Fingerprints)
    requires DisjointIds(s, t)
    ensures DisjointIds(SortById(s), SortById(t))
  {
    SortKeeps(s);
    SortKeeps(t);
    forall i, j | 0 <= i < |SortById(s)| && 0 <= j < |SortById(t)| ensures SortById(s)[i].0 != SortById(t)[j].0 {
      assert SortById(s)[i] in multiset(s) && SortById(t)[j] in multiset(t);
    }
  }

  /** On distinct, nonempty activity ids the constructed snapshot always satisfies its own validator. */
  lemma DistinctIdsNeverInvalid(stored: Doc<RiskSnapshot>, cp: Checkpoint, activities: seq<Activity>,
                                accountId: string, now: Moment)
    requires DistinctIds(activities) && forall a :: a in activities ==> a.id != Some("")
    requires stored.Missing? || (stored.Doc? && stored.value.Consistent())
    ensures Derive(stored, cp, activities, accountId, now) != Err(EvidenceInvalid)
  {
    if CashHistory(activities).Ok? {
      EvidenceIsValid(activities);
    }
    NoOtherEvidenceError(activities);
  }

  ghost predicate ValidEvidence(transfers: Fingerprints, journals: Fingerprints) {
    ValidIds(transfers) && ValidIds(journals) && DisjointIds(transfers, journals)
  }

  lemma EvidenceIsValid(activities: seq<Activity>)
    requires DistinctIds(activities) && forall a :: a in activities ==> a.id != Some("")
    requires CashHistory(activities).Ok?
    ensures var h := CashHistory(activities).value; ValidEvidence(SortById(h.transfers), SortById(h.journals))
  {
    var h := CashHistory(activities).value;
    HistorySourced(activities);
    SortValid(h.transfers);
    SortValid(h.journals);
    SortedDisjoint(h.transfers, h.journals);
  }

  lemma {:induction false} NoOtherEvidenceError(activities: seq<Activity>)
    ensures CashHistory(activities) != Err(EvidenceInvalid)
  {
    if activities != [] {
      NoOtherEvidenceError(activities[..|activities| - 1]);
    }
  }
}
