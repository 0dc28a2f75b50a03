/**
 The scan's send loop (`run_scan`, rank and send): a ranked list spends per-scan, per-session, per-source,
 per-group and LLM budgets that are re-derived from the recorded cards when the scan begins and then kept in
 memory. The scan lock makes each scan one serial run; recording a card appends a row or raises.
 */
module SendLoop {
  import opened Common
  import opened LlmGate

  const DYNAMIC := "dynamic"

  /** A card recorded this session, as the budget derivation reads it back. */
  datatype Row = Row(contract: string, strategy: string, dynamic: bool, notional: real)

  /** Configuration that outlives a scan: caps, catalog sources by strategy id, and the group and symbol maps. */
  datatype Desk = Desk(
    maxPerScan: int,
    maxPerSession: int,
    maxPerGroup: int,
    maxLlm: int,
    sourceCaps: map<string, int>,
    watchSources: set<string>,
    groups: string -> set<string>,
    normalize: string -> string,
    read: Payload -> Option<Fields>)

  datatype BudgetKind = Full | Session | NoBudget

  datatype Scan = Scan(
    budget: BudgetKind,
    dryRun: bool,
    useLlm: bool,
    keyed: bool,
    dynamic: set<string>,
    operatorDynamic: bool)

  /** A ranked candidate; `source` is the catalog source that offered it, none for a native one. */
  datatype Candidate = Candidate(contract: string, strategy: string, source: Option<string>)

  datatype Answer = Yes | No | Fails

  /** The evaluator before its LLM stage: it may raise, reject, or reach the gate with some reply. */
  datatype Evaluator = Crashes | RejectsFirst | ReachesGate(reply: Reply, applyFails: bool)

  datatype BookSizing = BookFails | BookBlocks | BookSizes(shrink: real -> real)

  /** A candidate with everything the outside world does to its iteration. */
  datatype Attempt = Attempt(
    candidate: Candidate,
    broadIndex: bool,
    carried: Answer,
    withheld: bool,
    evaluator: Evaluator,
    size: real -> real,
    book: BookSizing,
    recordFails: bool,
    lateFailure: bool)
  {
    predicate Native() {
      candidate.source.None?
    }
  }

  datatype Outcome =
    | BroadIndexExcluded | CardedThisScan | SourceBudgetSpent | ScanBudgetSpent | SessionBudgetSpent
    | GroupFull | LlmBudgetSpent | LiveCardPending | Withheld
    | LlmUnavailable | LlmVetoed | Rejected | BookBlocked | DryRun | Sent | Failed

  /** What one rank left behind. */
  datatype Entry = Entry(outcome: Outcome, native: bool, evaluated: bool, called: bool, errored: bool,
                         approvedRaw: bool, notional: real)

  datatype State = State(
    rows: seq<Row>,
    remainingScan: int,
    remainingSession: int,
    sourceRemaining: map<string, int>,
    groupsUsed: map<string, int>,
    llmBudget: int,
    breaker: bool,
    carded: set<string>,
    exposure: real,
    log: seq<Entry>)

  function Get(m: map<string, int>, key: string): int {
    if key in m then m[key] else 0
  }

  function Max0(x: int): nat {
    if x < 0 then 0 else x
  }

  // Counting recorded cards.

  predicate CountsAsDynamic(desk: Desk, row: Row) {
    row.dynamic && row.strategy !in desk.sourceCaps
  }

  function RowGroups(desk: Desk, row: Row): set<string> {
    desk.groups(row.contract) + if CountsAsDynamic(desk, row) then {DYNAMIC} else {}
  }

  function NativeCount(desk: Desk, rows: seq<Row>): nat {
    if rows == [] then 0
    else NativeCount(desk, rows[..|rows| - 1]) + if rows[|rows| - 1].strategy in desk.sourceCaps then 0 else 1
  }

  function SourceCount(rows: seq<Row>, source: string): nat {
    if rows == [] then 0
    else SourceCount(rows[..|rows| - 1], source) + if rows[|rows| - 1].strategy == source then 1 else 0
  }

  function GroupCount(desk: Desk, rows: seq<Row>, group: string): nat {
    if rows == [] then 0
    else GroupCount(desk, rows[..|rows| - 1], group) + if group in RowGroups(desk, rows[|rows| - 1]) then 1 else 0
  }

  function DynamicCount(desk: Desk, rows: seq<Row>): nat {
    if rows == [] then 0
    else DynamicCount(desk, rows[..|rows| - 1]) + if CountsAsDynamic(desk, rows[|rows| - 1]) then 1 else 0
  }

  // Groups a candidate counts toward, and those whose cap it must respect.

  predicate IsDynamic(scan: Scan, c: Candidate) {
    c.source.None? && c.contract in scan.dynamic
  }

  function CardGroups(desk: Desk, scan: Scan, c: Candidate): set<string> {
    desk.groups(c.contract) + if IsDynamic(scan, c) then {DYNAMIC} else {}
  }

  function CappedGroups(desk: Desk, scan: Scan, c: Candidate): set<string> {
    if scan.budget != NoBudget then CardGroups(desk, scan, c)
    else if scan.operatorDynamic && IsDynamic(scan, c) then {DYNAMIC} else {}
  }

  function RowOf(scan: Scan, c: Candidate, notional: real): Row {
    Row(c.contract, c.strategy, IsDynamic(scan, c), notional)
  }

  /** The groups of the cards so far, each with its count. */
  function CountGroups(desk: Desk, rows: seq<Row>): map<string, int> {
    if rows == [] then map[]
    else Charge(CountGroups(desk, rows[..|rows| - 1]), RowGroups(desk, rows[|rows| - 1]))
  }

  function Charge(used: map<string, int>, groups: set<string>): map<string, int> {
    map g | g in used.Keys + groups :: Get(used, g) + if g in groups then 1 else 0
  }

  /** The budgets a scan starts with, read back from today's rows. */
  function Begin(desk: Desk, scan: Scan, rows: seq<Row>, exposure: real, ranked: nat): State {
    if scan.budget == NoBudget then
      State(rows, ranked, ranked, map s | s in desk.sourceCaps :: 0,
            if scan.operatorDynamic && !scan.dryRun then map[DYNAMIC := DynamicCount(desk, rows)] else map[],
            desk.maxLlm, false, {}, exposure, [])
    else
      State(rows, if scan.budget == Full then desk.maxPerScan else ranked,
            Max0(desk.maxPerSession - NativeCount(desk, rows)),
            map s | s in desk.sourceCaps :: Max0(desk.sourceCaps[s] - SourceCount(rows, s)) as int,
            CountGroups(desk, rows), desk.maxLlm, false, {}, exposure, [])
  }

  datatype Check = Proceed | Refuse(outcome: Outcome) | Raise

  /** Some capped group of the candidate has its card already. */
  predicate GroupIsFull(desk: Desk, scan: Scan, s: State, c: Candidate) {
    exists g :: g in CappedGroups(desk, scan, c) && Get(s.groupsUsed, g) >= desk.maxPerGroup
  }

  /** The refusals before any evaluation, in the loop's order. */
  function Precheck(desk: Desk, scan: Scan, s: State, a: Attempt): Check {
    var c := a.candidate;
    if a.broadIndex then Refuse(BroadIndexExcluded)
    else if c.source.Some? && c.source.value in desk.watchSources
      && desk.normalize(c.contract) in s.carded then Refuse(CardedThisScan)
    else if c.source.Some? && Get(s.sourceRemaining, c.source.value) <= 0 then Refuse(SourceBudgetSpent)
    else if a.Native() && s.remainingScan <= 0 then Refuse(ScanBudgetSpent)
    else if a.Native() && s.remainingSession <= 0 then Refuse(SessionBudgetSpent)
    else if GroupIsFull(desk, scan, s, c) then Refuse(GroupFull)
    else if scan.useLlm && a.Native() && s.llmBudget <= 0 then Refuse(LlmBudgetSpent)
    else if a.Native() && a.carried.Fails? then Raise
    else if a.Native() && a.carried.Yes? then Refuse(LiveCardPending)
    else if a.Native() && a.withheld then Refuse(Withheld)
    else Proceed
  }

  /** The evaluation as the loop reads it. */
  datatype Evaluation = Crashed | Evaluated(approved: bool, judged: bool, errored: bool, called: bool,
                                            approvedRaw: bool)

  function GateError(native: bool, called: bool): Evaluation {
    Evaluated(!native, true, true, called, false)
  }

  /** The deterministic stages and the LLM gate: an error never approves a native card. */
  function Evaluate(desk: Desk, scan: Scan, native: bool, breaker: bool, e: Evaluator): Evaluation {
    match e
    case Crashes => Crashed
    case RejectsFirst => Evaluated(false, false, false, false, false)
    case ReachesGate(reply, applyFails) =>
      if !scan.useLlm then Evaluated(true, false, false, false, false)
      else if breaker || !scan.keyed then GateError(native, false)
      else
        match Classify(reply, desk.read)
        case Error(_) => GateError(native, true)
        case Approve(_) => if applyFails then GateError(native, true) else Evaluated(true, true, false, true, true)
        case Veto(_, _, _) => Evaluated(!native, true, false, true, false)
  }

  function Note(s: State, e: Entry): State {
    s.(log := s.log + [e])
  }

  function ExposureAfter(exposure: real, a: Attempt, notional: real): real {
    if a.lateFailure then exposure else exposure + notional
  }

  /** The in-memory effect of a recorded card, charged before anything else can fail. */
  function Record(desk: Desk, scan: Scan, s: State, a: Attempt, notional: real): State {
    var c := a.candidate;
    var charged := s.(rows := s.rows + [RowOf(scan, c, notional)], carded := s.carded + {desk.normalize(c.contract)},
                      groupsUsed := Charge(s.groupsUsed, CardGroups(desk, scan, c)),
                      exposure := ExposureAfter(s.exposure, a, notional));
    if c.source.Some? then
      charged.(sourceRemaining := s.sourceRemaining[c.source.value := Get(s.sourceRemaining, c.source.value) - 1])
    else charged.(remainingScan := s.remainingScan - 1, remainingSession := s.remainingSession - 1)
  }

  /** The notional a card is recorded with, book sizing included. */
  function CardNotional(s: State, a: Attempt): real {
    var sized := a.size(s.exposure);
    if a.Native() && a.book.BookSizes? then a.book.shrink(sized) else sized
  }

  function Skipped(outcome: Outcome, a: Attempt): Entry {
    Entry(outcome, a.Native(), false, false, false, false, 0.0)
  }

  /** What the loop makes of an evaluation, in its order; a card that is sent still lacks its notional. */
  function Verdict(scan: Scan, a: Attempt, ev: Evaluation): Entry
    requires ev.Evaluated?
  {
    var outcome :=
      if ev.errored && a.Native() then LlmUnavailable
      else if !ev.approved then if ev.judged && a.Native() then LlmVetoed else Rejected
      else if a.Native() && a.book.BookFails? then Failed
      else if a.Native() && a.book.BookBlocks? then BookBlocked
      else if scan.dryRun then DryRun
      else if a.recordFails then Failed
      else Sent;
    Entry(outcome, a.Native(), true, ev.called, ev.errored, ev.approvedRaw, 0.0)
  }

  /** The loop after an evaluation that did not raise. */
  function AfterEvaluation(desk: Desk, scan: Scan, s: State, a: Attempt, ev: Evaluation): State
    requires ev.Evaluated?
  {
    var entry := Verdict(scan, a, ev);
    if entry.outcome.Sent? then
      var notional := CardNotional(s, a);
      Note(Record(desk, scan, s, a, notional), entry.(notional := notional))
    else Note(s, entry)
  }

  /** A native evaluation of an LLM scan spends LLM budget, whatever comes of it. */
  function Spent(scan: Scan, s: State, a: Attempt): State {
    s.(llmBudget := if scan.useLlm && a.Native() then s.llmBudget - 1 else s.llmBudget)
  }

  /** An iteration that reached the evaluator; a gate error opens the breaker. */
  function WithEvaluation(desk: Desk, scan: Scan, s: State, a: Attempt, ev: Evaluation): State {
    if ev.Crashed? then Note(Spent(scan, s, a), Skipped(Failed, a).(evaluated := true))
    else AfterEvaluation(desk, scan, Spent(scan, s, a).(breaker := s.breaker || ev.errored), a, ev)
  }

  /** One iteration of the send loop, exceptions included. */
  function SendStep(desk: Desk, scan: Scan, s: State, a: Attempt): State {
    match Precheck(desk, scan, s, a)
    case Refuse(outcome) => Note(s, Skipped(outcome, a))
    case Raise => Note(s, Skipped(Failed, a))
    case Proceed => WithEvaluation(desk, scan, s, a, Evaluate(desk, scan, a.Native(), s.breaker, a.evaluator))
  }

  function SendAll(desk: Desk, scan: Scan, s: State, ranked: seq<Attempt>): State {
    if ranked == [] then s
    else SendStep(desk, scan, SendAll(desk, scan, s, ranked[..|ranked| - 1]), ranked[|ranked| - 1])
  }
}
