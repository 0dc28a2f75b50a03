/**
 Exactly which observations the drawdown machine accepts, on their raw fields, from the empty state and on a stored
 history; and a run that stores a drawdown.
 */
module RiskAcceptance {
  import opened Common
  import opened Rounding
  import opened Sums
  import opened Ledger
  import opened LedgerLaws
  import opened AccountRisk
  import opened RiskRuns
  import opened LedgerRisk
  import opened TransferNeutrality
  import opened NeutralRuns

  // The raw conditions.

  /** A ready report and its snapshot, of the bound account, taken at one aware time not after `now`. */
  ghost predicate GoodCheckpoint(o: Observation) {
    && !o.cp.importError && o.cp.report.Doc? && o.cp.snapshot.Doc?
    && var report, snapshot := o.cp.report.value, o.cp.snapshot.value;
       && report.issues == {} && report.grossRealized.Some? && report.netRealized.Some?
       && snapshot.accountId != "" && snapshot.accountId == o.accountId
       && snapshot.observedAt.Aware? && report.observedAt == snapshot.observedAt
       && o.now.Aware? && snapshot.observedAt.micros <= o.now.micros
  }

  predicate Flow(a: Activity) {
    a.kind == Some("CSD") || a.kind == Some("CSW")
  }

  predicate Journal(a: Activity) {
    a.kind == Some("JNLC")
  }

  predicate CashKind(a: Activity) {
    Flow(a) || Journal(a)
  }

  /** A cash activity with an amount, executed, moving no shares, in the direction of its kind, identified. */
  predicate GoodTransfer(a: Activity) {
    && a.netAmount.Num? && (a.status == None || a.status == Some("executed")) && (a.qty == Absent || a.qty == Num(0.0))
    && (a.kind == Some("CSD") ==> a.netAmount.value >= 0.0) && (a.kind == Some("CSW") ==> a.netAmount.value <= 0.0)
    && a.id.Some?
  }

  ghost predicate ReadableHistory(activities: seq<Activity>) {
    forall a :: a in activities && CashKind(a) ==> GoodTransfer(a)
  }

  /** No two cash activities share an id, and none has an empty one. */
  ghost predicate DistinctTransfers(activities: seq<Activity>) {
    && (forall a :: a in activities && CashKind(a) ==> a.id != Some(""))
    && (forall i, j :: 0 <= i < j < |activities| && CashKind(activities[i]) && CashKind(activities[j]) ==>
          activities[i].id != activities[j].id)
  }

  /** The activity is the evidence `p` of an accepted one: its id, kind, amount and times. */
  predicate Shows(a: Activity, p: (string, Evidence)) {
    && a.id == Some(p.0) && a.kind == Some(p.1.kind) && a.netAmount == Num(p.1.amount)
    && a.transactionTime == p.1.transactionTime && a.date == p.1.date
  }

  ghost predicate FlowReported(activities: seq<Activity>, p: (string, Evidence)) {
    exists a :: a in activities && Flow(a) && Shows(a, p)
  }

  ghost predicate JournalReported(activities: seq<Activity>, p: (string, Evidence)) {
    exists a :: a in activities && Journal(a) && Shows(a, p)
  }

  // The history on raw fields.

  lemma AddTransferIff(h: History, a: Activity)
    ensures AddTransfer(h, a).Ok? <==> (CashKind(a) ==> GoodTransfer(a))
    ensures Flow(a) && GoodTransfer(a) ==>
              var h' := AddTransfer(h, a).value;
              && |h'.transfers| == |h.transfers| + 1 && h'.transfers[..|h.transfers|] == h.transfers
              && Shows(a, h'.transfers[|h.transfers|]) && h'.journals == h.journals
    ensures Journal(a) && GoodTransfer(a) ==>
              var h' := AddTransfer(h, a).value;
              && |h'.journals| == |h.journals| + 1 && h'.journals[..|h.journals|] == h.journals
              && Shows(a, h'.journals[|h.journals|]) && h'.transfers == h.transfers
    ensures !Flow(a) && !Journal(a) ==> AddTransfer(h, a) == Ok(h)
  {
  }

  lemma {:induction false} HistoryReadableIff(activities: seq<Activity>)
    ensures CashHistory(activities).Ok? <==> ReadableHistory(activities)
  {
    if activities != [] {
      var init, a := activities[..|activities| - 1], activities[|activities| - 1];
      assert activities == init + [a];
      HistoryReadableIff(init);
      if CashHistory(init).Ok? {
        AddTransferIff(CashHistory(init).value, a);
      }
    }
  }

  lemma ShownOnce(a: Activity, p: (string, Evidence), q: (string, Evidence))
    requires Shows(a, p) && Shows(a, q)
    ensures p == q
  {
  }

  lemma {:induction false} HistoryShows(activities: seq<Activity>, p: (string, Evidence))
    requires CashHistory(activities).Ok?
    ensures p in CashHistory(activities).value.transfers <==> FlowReported(activities, p)
    ensures p in CashHistory(activities).value.journals <==> JournalReported(activities, p)
  {
    if activities != [] {
      var init, a := activities[..|activities| - 1], activities[|activities| - 1];
      assert activities == init + [a] && a in activities;
      HistoryShows(init, p);
      ReportedExtends(init, a, p);
      var h, h' := CashHistory(init).value, CashHistory(activities).value;
      AddTransferIff(h, a);
      if Flow(a) {
        LastMember(h.transfers, h'.transfers, a, p);
      } else if Journal(a) {
        LastMember(h.journals, h'.journals, a, p);
      }
    }
  }

  lemma LastMember(s: Fingerprints, t: Fingerprints, a: Activity, p: (string, Evidence))
    requires |t| == |s| + 1 && t[..|s|] == s && Shows(a, t[|s|])
    ensures p in t <==> p in s || Shows(a, p)
  {
    assert t == s + [t[|s|]];
    if Shows(a, p) {
      ShownOnce(a, p, t[|s|]);
    }
  }

  lemma ReportedExtends(init: seq<Activity>, a: Activity, p: (string, Evidence))
    ensures FlowReported(init + [a], p) <==> FlowReported(init, p) || (Flow(a) && Shows(a, p))
    ensures JournalReported(init + [a], p) <==> JournalReported(init, p) || (Journal(a) && Shows(a, p))
  {
    var all := init + [a];
    assert forall b :: b in all <==> b in init || b == a;
  }

  // Ids on raw fields.

  ghost predicate PlainHistory(h: History) {
    PlainIds(h.transfers) && PlainIds(h.journals) && DisjointIds(h.transfers, h.journals)
  }

  /** The id occurs in neither list. */
  ghost predicate NewId(h: History, id: string) {
    (forall p :: p in h.transfers ==> p.0 != id) && (forall p :: p in h.journals ==> p.0 != id)
  }

  lemma PlainExtends(s: Fingerprints, t: Fingerprints, other: Fingerprints)
    requires |t| == |s| + 1 && t[..|s|] == s
    ensures PlainIds(t) && DisjointIds(t, other) <==>
            && PlainIds(s) && DisjointIds(s, other) && t[|s|].0 != ""
            && (forall p :: p in s ==> p.0 != t[|s|].0) && (forall p :: p in other ==> p.0 != t[|s|].0)
  {
    assert forall i :: 0 <= i < |s| ==> t[i] == s[i];
    assert forall i :: 0 <= i < |s| ==> s[i] in s;
    assert forall i :: 0 <= i < |other| ==> other[i] in other;
    assert t == s + [t[|s|]];
  }

  lemma DisjointSymmetric(s: Fingerprints, t: Fingerprints)
    ensures DisjointIds(s, t) <==> DisjointIds(t, s)
  {
  }

  lemma PlainStep(h: History, a: Activity)
    requires AddTransfer(h, a).Ok?
    ensures PlainHistory(AddTransfer(h, a).value) <==>
            PlainHistory(h) && (CashKind(a) ==> a.id != Some("") && NewId(h, a.id.value))
  {
    var h' := AddTransfer(h, a).value;
    AddTransferIff(h, a);
    DisjointSymmetric(h.transfers, h.journals);
    DisjointSymmetric(h'.transfers, h'.journals);
    if Flow(a) {
      PlainExtends(h.transfers, h'.transfers, h.journals);
    } else if Journal(a) {
      PlainExtends(h.journals, h'.journals, h.transfers);
    }
  }

  lemma NewIdStep(h: History, a: Activity, id: string)
    requires AddTransfer(h, a).Ok?
    ensures NewId(AddTransfer(h, a).value, id) <==> NewId(h, id) && (CashKind(a) ==> a.id != Some(id))
  {
    var h' := AddTransfer(h, a).value;
    AddTransferIff(h, a);
    if Flow(a) {
      assert h'.transfers == h.transfers + [h'.transfers[|h.transfers|]];
    } else if Journal(a) {
      assert h'.journals == h.journals + [h'.journals[|h.journals|]];
    }
  }

  lemma {:induction false} NewIdIff(activities: seq<Activity>, id: string)
    requires CashHistory(activities).Ok?
    ensures NewId(CashHistory(activities).value, id) <==>
            forall a :: a in activities && CashKind(a) ==> a.id != Some(id)
  {
    if activities != [] {
      var init, a := activities[..|activities| - 1], activities[|activities| - 1];
      assert activities == init + [a];
      NewIdIff(init, id);
      NewIdStep(CashHistory(init).value, a, id);
    }
  }

  lemma {:induction false} PlainIff(activities: seq<Activity>)
    requires CashHistory(activities).Ok?
    ensures PlainHistory(CashHistory(activities).value) <==> DistinctTransfers(activities)
  {
    if activities != [] {
      var init, a := activities[..|activities| - 1], activities[|activities| - 1];
      assert activities == init + [a];
      PlainIff(init);
      DistinctExtends(init, a);
      PlainStep(CashHistory(init).value, a);
      AddTransferIff(CashHistory(init).value, a);
      if CashKind(a) {
        NewIdIff(init, a.id.value);
      }
    }
  }

  lemma DistinctExtends(init: seq<Activity>, a: Activity)
    ensures DistinctTransfers(init + [a]) <==>
            && DistinctTransfers(init)
            && (CashKind(a) ==>
                  a.id != Some("") && forall b :: b in init && CashKind(b) ==> b.id != a.id)
  {
    var all := init + [a];
    assert all[|init|] == a && forall i :: 0 <= i < |init| ==> all[i] == init[i] && init[i] in init;
    assert forall b :: b in all <==> b in init || b == a;
  }

  // Sorted evidence.

  lemma PlainPermutation(s: Fingerprints, t: Fingerprints)
    requires multiset(s) == multiset(t) && PlainIds(s)
    ensures PlainIds(t)
  {
    forall i | 0 <= i < |t| ensures t[i].0 != "" {
      assert t[i] in multiset(s);
    }
    forall i, j | 0 <= i < j < |t| ensures t[i].0 != t[j].0 {
      var k, l := TwoPlaces(s, t, i, j);
      assert s[k].0 != s[l].0;
    }
  }

  lemma SortValidIff(s: Fingerprints)
    ensures ValidIds(SortById(s)) <==> PlainIds(s)
  {
    SortKeeps(s);
    if PlainIds(s) {
      SortValid(s);
    }
    if ValidIds(SortById(s)) {
      forall i, j | 0 <= i < j < |SortById(s)| ensures SortById(s)[i].0 != SortById(s)[j].0 {
        LexTotal(SortById(s)[i].0, SortById(s)[i].0);
      }
      PlainPermutation(SortById(s), s);
    }
  }

  lemma SortMembers(s: Fingerprints, p: (string, Evidence))
    ensures p in SortById(s) <==> p in s
  {
    SortKeeps(s);
    assert p in multiset(SortById(s)) <==> p in multiset(s);
  }

  lemma SortDisjointIff(s: Fingerprints, t: Fingerprints)
    ensures DisjointIds(SortById(s), SortById(t)) <==> DisjointIds(s, t)
  {
    if DisjointIds(s, t) {
      SortedDisjoint(s, t);
    }
    if DisjointIds(SortById(s), SortById(t)) {
      forall i, j | 0 <= i < |s| && 0 <= j < |t| ensures s[i].0 != t[j].0 {
        SortMembers(s, s[i]);
        SortMembers(t, t[j]);
      }
    }
  }

  /** Strictly increasing lists with the same members are the same list. */
  lemma {:induction false} SortedUnique(s: Fingerprints, t: Fingerprints)
    requires ValidIds(s) && ValidIds(t) && forall p :: p in s <==> p in t
    ensures s == t
    decreases |s|
  {
    if s == [] {
      HasMember(t);
    } else {
      assert s[0] in t;
      var m, n := |s| - 1, |t| - 1;
      SameLast(s, t);
      forall p ensures p in s[..m] <==> p in t[..n] {
        MemberBeforeLast(s, p);
        MemberBeforeLast(t, p);
      }
      SortedUnique(s[..m], t[..n]);
      assert s == s[..m] + [s[m]] && t == t[..n] + [t[n]];
    }
  }

  lemma HasMember(s: Fingerprints)
    ensures s == [] || exists p :: p in s
  {
    if s != [] {
      assert s[0] in s;
    }
  }

  lemma MemberBeforeLast(s: Fingerprints, p: (string, Evidence))
    requires s != [] && ValidIds(s)
    ensures p in s[..|s| - 1] <==> p in s && p != s[|s| - 1]
  {
    assert s == s[..|s| - 1] + [s[|s| - 1]];
    LexTotal(s[|s| - 1].0, s[|s| - 1].0);
  }

  lemma SameLast(s: Fingerprints, t: Fingerprints)
    requires s != [] && t != [] && ValidIds(s) && ValidIds(t) && forall p :: p in s <==> p in t
    ensures s[|s| - 1] == t[|t| - 1]
  {
    var x, y := s[|s| - 1], t[|t| - 1];
    assert x in t && y in s;
    var i :| 0 <= i < |t| && t[i] == x;
    var j :| 0 <= j < |s| && s[j] == y;
    if x != y {
      LexTransitive(x.0, y.0, x.0);
      LexTotal(x.0, x.0);
    }
  }

  // Acceptance.

  lemma CheckpointIff(o: Observation)
    ensures GoodCheckpoint(o) <==>
            && ValidatedCheckpoint(o.cp).Ok? && o.now.Aware?
            && ValidatedCheckpoint(o.cp).value.observedAt.micros <= o.now.micros
            && ValidatedCheckpoint(o.cp).value.accountId == o.accountId
    ensures GoodCheckpoint(o) ==> ValidatedCheckpoint(o.cp) == Ok(o.cp.snapshot.value)
  {
  }

  lemma EvidenceIff(h: History)
    ensures PlainHistory(h) <==> ValidEvidence(SortById(h.transfers), SortById(h.journals))
  {
    SortValidIff(h.transfers);
    SortValidIff(h.journals);
    SortDisjointIff(h.transfers, h.journals);
  }

  /** From the empty state an observation seeds a history exactly when all of this holds of its raw fields. */
  lemma FirstAcceptedIff(o: Observation)
    ensures Step(NO_RISK, o).error.None? <==>
            && GoodCheckpoint(o) && ReadableHistory(o.activities) && DistinctTransfers(o.activities)
            && Equity(o.cp.snapshot.value) > 0.0
  {
    CheckpointIff(o);
    HistoryReadableIff(o.activities);
    if CashHistory(o.activities).Ok? {
      PlainIff(o.activities);
      EvidenceIff(CashHistory(o.activities).value);
    }
  }

  /** The stored evidence agrees with what the broker reports: the same journals, every accepted transfer unrevised. */
  ghost predicate EvidenceStands(risk: RiskSnapshot, activities: seq<Activity>) {
    && (forall p :: p in risk.journals <==> JournalReported(activities, p))
    && (forall p :: p in risk.transfers ==> FlowReported(activities, p))
  }

  lemma StandsIff(prior: RiskSnapshot, activities: seq<Activity>)
    requires prior.Consistent() && CashHistory(activities).Ok? && PlainHistory(CashHistory(activities).value)
    ensures var h := CashHistory(activities).value;
            EvidenceStands(prior, activities) <==>
              SortById(h.journals) == prior.journals && AllFound(prior.transfers, h.transfers)
  {
    var h := CashHistory(activities).value;
    forall p ensures p in h.transfers <==> FlowReported(activities, p) {
      HistoryShows(activities, p);
    }
    forall p ensures p in SortById(h.journals) <==> JournalReported(activities, p) {
      HistoryShows(activities, p);
      SortMembers(h.journals, p);
    }
    SortValidIff(h.journals);
    if forall p :: p in prior.journals <==> JournalReported(activities, p) {
      SortedUnique(SortById(h.journals), prior.journals);
    }
    forall p: (string, Evidence) ensures Lookup(SortById(h.transfers), p.0) == Some(p.1) <==> p in h.transfers {
      FoundIff(h.transfers, p);
    }
  }

  lemma FoundIff(s: Fingerprints, p: (string, Evidence))
    requires PlainIds(s)
    ensures Lookup(SortById(s), p.0) == Some(p.1) <==> p in s
  {
    SortValid(s);
    SortMembers(s, p);
    if Lookup(SortById(s), p.0) == Some(p.1) {
      LookupIsMember(SortById(s), p.0, p.1);
    }
    if p in s {
      LookupFinds(SortById(s), p);
    }
  }

  /** On a stored history an observation is accepted exactly when all of this holds of its raw fields. */
  lemma NextAcceptedIff(s: RiskFields, o: Observation)
    requires s.invalidation.None? && s.risk.Doc? && s.risk.value.Consistent()
    ensures Step(s, o).error.None? <==>
            && GoodCheckpoint(o) && ReadableHistory(o.activities) && DistinctTransfers(o.activities)
            && s.risk.value.accountId == o.accountId && s.risk.value.observedAt <= o.cp.snapshot.value.observedAt.micros
            && EvidenceStands(s.risk.value, o.activities)
  {
    CheckpointIff(o);
    HistoryReadableIff(o.activities);
    if GoodCheckpoint(o) && CashHistory(o.activities).Ok? {
      NextDecides(s, o, CashHistory(o.activities).value);
    }
  }

  lemma NextDecides(s: RiskFields, o: Observation, h: History)
    requires s.invalidation.None? && s.risk.Doc? && s.risk.value.Consistent()
    requires GoodCheckpoint(o) && CashHistory(o.activities) == Ok(h)
    ensures Step(s, o).error.None? <==>
            && DistinctTransfers(o.activities)
            && s.risk.value.accountId == o.accountId && s.risk.value.observedAt <= o.cp.snapshot.value.observedAt.micros
            && EvidenceStands(s.risk.value, o.activities)
  {
    var prior, snapshot := s.risk.value, o.cp.snapshot.value;
    CheckpointIff(o);
    RefusalByFinding(prior, snapshot, h, o.accountId);
    PlainIff(o.activities);
    EvidenceIff(h);
    if PlainHistory(h) {
      StandsIff(prior, o.activities);
    }
    if PriorRefusal(prior, snapshot, h, o.accountId).None? {
      NextValidIff(prior, snapshot, h);
    }
  }

  lemma NextValidIff(prior: RiskSnapshot, snapshot: AccountSnapshot, h: History)
    requires prior.Consistent() && SortById(h.journals) == prior.journals
             && prior.observedAt <= snapshot.observedAt.micros
    ensures Next(prior, snapshot, Equity(snapshot), h).Consistent() <==>
            ValidEvidence(SortById(h.transfers), SortById(h.journals))
  {
  }

  // Refusals.

  /** What is wrong with a cash activity that is not a good transfer. */
  function Fault(a: Activity): RiskError {
    if !a.netAmount.Num? then UnreadableTransfer
    else if !(a.status == None || a.status == Some("executed")) || !(a.qty == Absent || a.qty == Num(0.0))
    then UnsupportedTransfer
    else if a.id.None? && !Misdirected(a) then UnreadableTransfer
    else MisdirectedTransfer
  }

  predicate Misdirected(a: Activity)
    requires a.netAmount.Num?
  {
    (a.kind == Some("CSD") && a.netAmount.value < 0.0) || (a.kind == Some("CSW") && a.netAmount.value > 0.0)
  }

  /** The first bad transfer of a list. */
  ghost predicate FirstBad(activities: seq<Activity>, k: int) {
    && 0 <= k < |activities| && CashKind(activities[k]) && !GoodTransfer(activities[k])
    && ReadableHistory(activities[..k])
  }

  lemma AddTransferFault(h: History, a: Activity)
    requires CashKind(a) && !GoodTransfer(a)
    ensures AddTransfer(h, a) == Err(Fault(a))
  {
  }

  /** The history's error is that of its first bad transfer. */
  lemma {:induction false} FaultIsFirst(activities: seq<Activity>)
    requires CashHistory(activities).Err?
    ensures exists k :: FirstBad(activities, k) && CashHistory(activities) == Err(Fault(activities[k]))
  {
    var n := |activities| - 1;
    var init := activities[..n];
    HistoryReadableIff(init);
    if CashHistory(init).Err? {
      FaultIsFirst(init);
      var k :| FirstBad(init, k) && CashHistory(init) == Err(Fault(init[k]));
      assert init[..k] == activities[..k];
      assert FirstBad(activities, k);
    } else {
      AddTransferIff(CashHistory(init).value, activities[n]);
      AddTransferFault(CashHistory(init).value, activities[n]);
      assert FirstBad(activities, n);
    }
  }

  /** The error of an observation whose checkpoint is not good, or none. */
  function CheckpointFault(o: Observation): Option<RiskError> {
    if o.cp.importError then Some(ImportFailed)
    else if o.cp.report.Missing? then Some(AwaitingReconciliation)
    else if o.cp.report.Malformed? then Some(ReportInvalid)
    else
      var report := o.cp.report.value;
      if report.issues != {} || report.grossRealized.None? || report.netRealized.None? then Some(NotReady)
      else if o.cp.snapshot.Missing? then Some(SnapshotUnavailable)
      else if o.cp.snapshot.Malformed? || o.cp.snapshot.value.accountId == "" then Some(SnapshotInvalid)
      else
        var at := o.cp.snapshot.value.observedAt;
        if !at.Aware? || report.observedAt != at then Some(MisalignedTimes)
        else if !o.now.Aware? || o.now.micros < at.micros then Some(FutureDated)
        else if o.cp.snapshot.value.accountId != o.accountId then Some(WrongAccount)
        else None
  }

  /** What a good checkpoint and a readable history still meet on a stored risk. */
  ghost predicate PriorExplains(prior: RiskSnapshot, o: Observation, error: Option<RiskError>)
    requires o.cp.snapshot.Doc?
  {
    if prior.accountId != o.accountId then error == Some(BaselineElsewhere)
    else if o.cp.snapshot.value.observedAt.micros < prior.observedAt then error == Some(OutOfOrder)
    else if !DistinctTransfers(o.activities) then
      error == Some(JournalsChanged) || error == Some(TransfersRevised) || error == Some(EvidenceInvalid)
    else if exists p :: (p in prior.journals) != JournalReported(o.activities, p) then error == Some(JournalsChanged)
    else if exists p :: p in prior.transfers && !FlowReported(o.activities, p) then error == Some(TransfersRevised)
    else error == None
  }

  /** The error an observation leaves: the first of these conditions that holds decides it. */
  ghost predicate Explains(s: RiskFields, o: Observation, error: Option<RiskError>) {
    if s.invalidation.Some? then error == s.invalidation
    else if CheckpointFault(o).Some? then error == CheckpointFault(o)
    else if !ReadableHistory(o.activities) then
      exists k :: FirstBad(o.activities, k) && error == Some(Fault(o.activities[k]))
    else if s.risk.Missing? then
      error == if Equity(o.cp.snapshot.value) <= 0.0 then Some(NonpositiveEquity)
               else if !DistinctTransfers(o.activities) then Some(EvidenceInvalid) else None
    else if s.risk.Malformed? || !s.risk.value.Consistent() then error == Some(EvidenceInvalid)
    else PriorExplains(s.risk.value, o, error)
  }

  lemma FaultOrGood(o: Observation)
    ensures CheckpointFault(o).None? <==> GoodCheckpoint(o)
    ensures CheckpointFault(o).Some? ==>
              forall risk: Doc<RiskSnapshot> ::
                Derive(risk, o.cp, o.activities, o.accountId, o.now) == Err(CheckpointFault(o).value)
  {
  }

  lemma PriorExplained(s: RiskFields, o: Observation, h: History)
    requires s.invalidation.None? && s.risk.Doc? && s.risk.value.Consistent()
    requires GoodCheckpoint(o) && CashHistory(o.activities) == Ok(h)
    ensures PriorExplains(s.risk.value, o, Step(s, o).error)
  {
    var prior, snapshot := s.risk.value, o.cp.snapshot.value;
    CheckpointIff(o);
    PlainIff(o.activities);
    EvidenceIff(h);
    if PriorRefusal(prior, snapshot, h, o.accountId).None? {
      NextValidIff(prior, snapshot, h);
    }
    if PlainHistory(h) {
      JournalsIff(prior, o.activities, h);
      FlowsIff(prior, o.activities, h);
    }
  }

  lemma JournalsIff(prior: RiskSnapshot, activities: seq<Activity>, h: History)
    requires prior.Consistent() && CashHistory(activities) == Ok(h) && PlainHistory(h)
    ensures SortById(h.journals) != prior.journals <==>
            exists p :: (p in prior.journals) != JournalReported(activities, p)
  {
    forall p ensures p in SortById(h.journals) <==> JournalReported(activities, p) {
      HistoryShows(activities, p);
      SortMembers(h.journals, p);
    }
    SortValidIff(h.journals);
    if forall p :: p in prior.journals <==> JournalReported(activities, p) {
      SortedUnique(SortById(h.journals), prior.journals);
    }
  }

  lemma FlowsIff(prior: RiskSnapshot, activities: seq<Activity>, h: History)
    requires CashHistory(activities) == Ok(h) && PlainHistory(h)
    ensures AllFound(prior.transfers, h.transfers) <==>
            !exists p :: p in prior.transfers && !FlowReported(activities, p)
  {
    forall p: (string, Evidence)
      ensures Lookup(SortById(h.transfers), p.0) == Some(p.1) <==> FlowReported(activities, p)
    {
      FoundIff(h.transfers, p);
      HistoryShows(activities, p);
    }
  }

  /** Every observation leaves the error its raw conditions give, or none. */
  lemma ErrorExplained(s: RiskFields, o: Observation)
    ensures Explains(s, o, Step(s, o).error)
  {
    FaultOrGood(o);
    HistoryReadableIff(o.activities);
    if s.invalidation.None? && GoodCheckpoint(o) {
      if CashHistory(o.activities).Err? {
        FaultIsFirst(o.activities);
        CheckpointIff(o);
      } else if s.risk.Missing? {
        FirstExplained(s, o);
      } else if s.risk.Doc? && s.risk.value.Consistent() {
        PriorExplained(s, o, CashHistory(o.activities).value);
      }
    }
  }

  lemma FirstExplained(s: RiskFields, o: Observation)
    requires s.invalidation.None? && s.risk.Missing? && GoodCheckpoint(o) && CashHistory(o.activities).Ok?
    ensures Step(s, o).error == if Equity(o.cp.snapshot.value) <= 0.0 then Some(NonpositiveEquity)
                                else if !DistinctTransfers(o.activities) then Some(EvidenceInvalid) else None
  {
    CheckpointIff(o);
    PlainIff(o.activities);
    EvidenceIff(CashHistory(o.activities).value);
  }

  // A run that stores a drawdown.

  const FEE_OF_TEN := Activity(Some("f"), Some("FEE"), None, None, Absent, Absent, Num(-10.0), None, None, None, None,
                               None)

  function CashOnly(cash: real, at: int): AccountSnapshot {
    AccountSnapshot("acct", cash, map[], Aware(at))
  }

  /** The ledger's own observation of a list and an all-cash account. */
  ghost function Seen(activities: seq<Activity>, cash: real, at: int): Observation {
    Observation(Checkpoint(false, Doc(Report(activities, CashOnly(cash, at), 0.01)), Doc(CashOnly(cash, at))),
                activities,
                "acct", Aware(at))
  }

  lemma CashOnlySeen(activities: seq<Activity>, cash: real, at: int)
    requires Reconciles(activities, CashOnly(cash, at), 0.01)
    ensures GoodCheckpoint(Seen(activities, cash, at)) && Equity(CashOnly(cash, at)) == cash
  {
    ReadyIffReconciles(activities, CashOnly(cash, at), 0.01);
    ReadyTotals(activities, CashOnly(cash, at), 0.01);
  }

  lemma FirstDeposit()
    ensures Reconciles([DEPOSIT], CashOnly(100.0, 1), 0.01)
  {
    assert [DEPOSIT][..0] == [];
    assert CashOf(DEPOSIT) == 100.0 && Readable(DEPOSIT);
    assert Sum([DEPOSIT], CashOf) == 100.0;
    forall x ensures Sum([DEPOSIT], QtyOf(x)) == 0.0 {
      assert Moved(DEPOSIT, x) == 0.0;
    }
  }

  lemma ThenAFee()
    ensures Reconciles([DEPOSIT, FEE_OF_TEN], CashOnly(90.0, 2), 0.01)
  {
    assert [DEPOSIT, FEE_OF_TEN][..1] == [DEPOSIT] && [DEPOSIT][..0] == [];
    assert CashOf(DEPOSIT) == 100.0 && Readable(DEPOSIT) && CashOf(FEE_OF_TEN) == -10.0 && Readable(FEE_OF_TEN);
    assert Sum([DEPOSIT], CashOf) == 100.0;
    forall x ensures Sum([DEPOSIT, FEE_OF_TEN], QtyOf(x)) == 0.0 {
      assert Moved(DEPOSIT, x) == 0.0 && Moved(FEE_OF_TEN, x) == 0.0 && Sum([DEPOSIT], QtyOf(x)) == 0.0;
    }
  }

  /** A deposit of 100, then a fee of ten: both observations are accepted, and a drawdown of a tenth is stored. */
  lemma DrawdownIsStored()
    ensures var run := [Seen([DEPOSIT], 100.0, 1), Seen([DEPOSIT, FEE_OF_TEN], 90.0, 2)];
            && Run(run).error.None? && Run(run).risk.Doc?
            && var risk := Run(run).risk.value; risk.highWater == 100.0 && risk.adjusted == 90.0 && risk.drawdown == 0.1
  {
    var first, second := Seen([DEPOSIT], 100.0, 1), Seen([DEPOSIT, FEE_OF_TEN], 90.0, 2);
    RunOfTwo(first, second);
    DepositIsAccepted();
    FeeIsAccepted(Step(NO_RISK, first));
    NextFigures(Step(NO_RISK, first), second);
  }

  /** What the deposit seeds. */
  ghost predicate SeededByDeposit(s: RiskFields) {
    && s.invalidation.None? && s.risk.Doc? && s.risk.value.Consistent()
    && var r := s.risk.value;
       && r.accountId == "acct" && r.observedAt == 1 && r.highWater == 100.0 && r.baselineFlows == 100.0
       && r.journals == [] && r.transfers == [DEPOSIT_EVIDENCE]
  }

  lemma DepositIsAccepted()
    ensures SeededByDeposit(Step(NO_RISK, Seen([DEPOSIT], 100.0, 1)))
  {
    FirstDeposit();
    CashOnlySeen([DEPOSIT], 100.0, 1);
    FirstAcceptedIff(Seen([DEPOSIT], 100.0, 1));
    SeedFigures(Seen([DEPOSIT], 100.0, 1));
  }

  lemma FeeIsAccepted(s: RiskFields)
    requires SeededByDeposit(s)
    ensures Step(s, Seen([DEPOSIT, FEE_OF_TEN], 90.0, 2)).error.None? && Equity(CashOnly(90.0, 2)) == 90.0
  {
    ThenAFee();
    CashOnlySeen([DEPOSIT, FEE_OF_TEN], 90.0, 2);
    DepositStands(s.risk.value);
    NextAcceptedIff(s, Seen([DEPOSIT, FEE_OF_TEN], 90.0, 2));
  }

  lemma RunOfTwo(first: Observation, second: Observation)
    ensures Run([first, second]) == Step(Step(NO_RISK, first), second)
  {
    assert [first, second][..1] == [first] && [first][..0] == [];
    assert Continue(NO_RISK, []) == NO_RISK;
    assert Continue(NO_RISK, [first]) == Step(NO_RISK, first);
  }

  /** The evidence of the deposit. */
  const DEPOSIT_EVIDENCE := ("d", Evidence("CSD", 100.0, None, None))

  lemma SeedFigures(o: Observation)
    requires Step(NO_RISK, o).error.None? && o.activities == [DEPOSIT] && o.accountId == "acct"
    requires o.cp.snapshot == Doc(CashOnly(100.0, 1)) && Equity(CashOnly(100.0, 1)) == 100.0
    ensures SeededByDeposit(Step(NO_RISK, o))
  {
    DepositHistory();
  }

  lemma DepositHistory()
    ensures CashHistory([DEPOSIT]) == Ok(History(100.0, [DEPOSIT_EVIDENCE], []))
    ensures CashHistory([DEPOSIT, FEE_OF_TEN]) == Ok(History(100.0, [DEPOSIT_EVIDENCE], []))
    ensures SortById([DEPOSIT_EVIDENCE]) == [DEPOSIT_EVIDENCE] && SortById([]) == []
  {
    assert [DEPOSIT, FEE_OF_TEN][..1] == [DEPOSIT] && [DEPOSIT][..0] == [];
    assert [DEPOSIT_EVIDENCE][..0] == [];
    var none := History(0.0, [], []);
    assert CashHistory([]) == Ok(none);
    assert none.transfers + [DEPOSIT_EVIDENCE] == [DEPOSIT_EVIDENCE] && IsCashTransfer(DEPOSIT);
    assert AddTransfer(none, DEPOSIT) == Ok(History(100.0, [DEPOSIT_EVIDENCE], []));
    assert CashHistory([DEPOSIT]) == AddTransfer(none, DEPOSIT);
    assert SortById([DEPOSIT_EVIDENCE]) == InsertById([], DEPOSIT_EVIDENCE);
  }

  lemma DepositStands(risk: RiskSnapshot)
    requires risk.journals == [] && risk.transfers == [DEPOSIT_EVIDENCE]
    ensures EvidenceStands(risk, [DEPOSIT, FEE_OF_TEN])
    ensures ReadableHistory([DEPOSIT, FEE_OF_TEN]) && DistinctTransfers([DEPOSIT, FEE_OF_TEN])
    ensures ReadableHistory([DEPOSIT]) && DistinctTransfers([DEPOSIT])
  {
    assert DEPOSIT in [DEPOSIT, FEE_OF_TEN] && Flow(DEPOSIT) && Shows(DEPOSIT, DEPOSIT_EVIDENCE);
    assert !Journal(DEPOSIT) && !Journal(FEE_OF_TEN);
  }

  lemma NextFigures(s: RiskFields, o: Observation)
    requires SeededByDeposit(s) && Step(s, o).error.None?
    requires o.activities == [DEPOSIT, FEE_OF_TEN] && o.cp.snapshot == Doc(CashOnly(90.0, 2))
             && Equity(CashOnly(90.0, 2)) == 90.0
    ensures Step(s, o).risk.Doc?
    ensures var risk := Step(s, o).risk.value; risk.highWater == 100.0 && risk.adjusted == 90.0 && risk.drawdown == 0.1
  {
    DepositHistory();
  }
}
