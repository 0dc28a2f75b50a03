/**
 Cash and inventory reconciliation of a broker's activity list against its account snapshot
 (`accounting/ledger.py`). Money is exact, so it is a `real`.
 */
module Ledger {
  import opened Common
  import opened Rounding
  import opened Sums

  /** A JSON amount as `decimal` meets it: absent (or null), not a finite number, or a number. */
  datatype RawAmount = Absent | Unreadable | Num(value: real)

  /** One broker activity; a field the broker left out is `None`. */
  datatype Activity = Activity(
    id: Option<string>,
    kind: Option<string>,
    symbol: Option<string>,
    side: Option<string>,
    qty: RawAmount,
    price: RawAmount,
    netAmount: RawAmount,
    orderId: Option<string>,
    transactionTime: Option<string>,
    date: Option<string>,
    status: Option<string>,
    assetClass: Option<string>)

  datatype Position = Position(qty: real, costBasis: real, unrealized: real, assetClass: string)

  /** A broker timestamp: naive ones carry no offset and compare with nothing aware. */
  datatype Moment = Aware(micros: int) | Naive(micros: int)

  datatype AccountSnapshot = AccountSnapshot(
    accountId: string,
    cash: real,
    positions: map<string, Position>,
    observedAt: Moment)

  datatype Issue =
    | InvalidActivity
    | UnsupportedActivity(kind: string)
    | CashMismatch(delta: real)
    | QuantityMismatch(symbols: set<string>)
    | InconsistentPositions

  datatype LedgerReport = LedgerReport(
    observedAt: Moment,
    activityCount: nat,
    fillCount: nat,
    issues: set<Issue>,
    cashDelta: real,
    quantityDeltas: map<string, real>,
    grossRealized: Option<real>,
    fees: real,
    income: real,
    netRealized: Option<real>,
    unrealized: real)
  {
    predicate Ready() {
      issues == {} && grossRealized.Some? && netRealized.Some?
    }
  }

  const CASH_TRANSFERS: set<string> := {"CSD", "CSW", "JNLC"}
  const FEES: set<string> := {"FEE", "CFEE", "DIVFEE"}
  const INCOME: set<string> := {"DIV", "INT"}
  const SELL_SIDES: set<string> := {"sell", "sell_short"}
  const US_EQUITY: string := "us_equity"

  predicate Truthy(field: Option<string>) {
    field.Some? && field.value != ""
  }

  /** What an activity means once its fields are read; `Bad` is any of the caught exceptions. */
  datatype Entry =
    | Fill(symbol: string, direction: real, qty: real, price: real)
    | Transfer(amount: real)
    | Fee(amount: real)
    | Income(amount: real)
    | Unsupported(kind: string)
    | Bad

  function ReadFill(a: Activity): (e: Entry)
    ensures e.Fill? || e.Bad?
    ensures e.Fill? ==> e.symbol != "" && e.qty > 0.0 && e.price > 0.0 && (e.direction == 1.0 || e.direction == -1.0)
    ensures e.Fill? ==> a.symbol == Some(e.symbol) && a.qty == Num(e.qty) && a.price == Num(e.price)
    ensures e.Fill? ==> a.side.Some? && (e.direction == -1.0 <==> a.side.value == "buy")
  {
    if || !a.qty.Num? || !a.price.Num? || a.side.None? || a.symbol.None?
       || a.qty.value <= 0.0 || a.price.value <= 0.0
       || !Truthy(a.symbol) || !Truthy(a.orderId) || !Truthy(a.transactionTime) then Bad
    else if a.side.value !in {"buy"} + SELL_SIDES then Bad
    else if '/' in a.symbol.value || (a.assetClass.Some? && a.assetClass.value != US_EQUITY) then Bad
    else Fill(a.symbol.value, if a.side.value in SELL_SIDES then 1.0 else -1.0, a.qty.value, a.price.value)
  }

  function ReadCash(a: Activity, kind: string): (e: Entry)
    requires kind in CASH_TRANSFERS + FEES + INCOME
    ensures e.Transfer? || e.Fee? || e.Income? || e.Bad?
    ensures e.Transfer? ==> kind in CASH_TRANSFERS && (a.qty.Num? ==> a.qty.value == 0.0)
    ensures !e.Bad? ==> a.netAmount == Num(e.amount) && (a.status.Some? ==> a.status.value == "executed")
    ensures (e.Fee? ==> kind in FEES) && (e.Income? ==> kind in INCOME)
  {
    if a.status.Some? && a.status.value != "executed" then Bad
    else if kind in CASH_TRANSFERS && (a.qty.Unreadable? || (a.qty.Num? && a.qty.value != 0.0)) then Bad
    else if !a.netAmount.Num? then Bad
    else if kind in FEES then Fee(a.netAmount.value)
    else if kind in INCOME then Income(a.netAmount.value)
    else Transfer(a.netAmount.value)
  }

  function Read(a: Activity): Entry {
    if a.kind.None? then Bad
    else if a.kind.value == "FILL" then ReadFill(a)
    else if a.kind.value in CASH_TRANSFERS + FEES + INCOME then ReadCash(a, a.kind.value)
    else Unsupported(a.kind.value)
  }

  /** The loop's variables. */
  datatype Tally = Tally(
    inventory: map<string, real>,
    fillCash: real,
    cash: real,
    fees: real,
    income: real,
    issues: set<Issue>,
    ids: set<string>,
    fills: nat)

  const EMPTY_TALLY := Tally(map[], 0.0, 0.0, 0.0, 0.0, {}, {}, 0)

  function Held(inventory: map<string, real>, symbol: string): real {
    if symbol in inventory then inventory[symbol] else 0.0
  }

  /** The cash a fill brings in; `direction` is -1 for a buy. */
  function Proceeds(direction: real, qty: real, price: real): real {
    direction * qty * price
  }

  /** The signed quantity a fill adds. */
  function Bought(direction: real, qty: real): real {
    -direction * qty
  }

  /** One activity; an unreadable one, or a repeated id, only leaves an issue. */
  function Post(t: Tally, a: Activity): Tally {
    if !Truthy(a.id) || a.id.value in t.ids then t.(issues := t.issues + {InvalidActivity})
    else
      var t := t.(ids := t.ids + {a.id.value});
      match Read(a)
      case Fill(symbol, direction, qty, price) =>
        t.(inventory := t.inventory[symbol := Held(t.inventory, symbol) + Bought(direction, qty)],
           fillCash := t.fillCash + Proceeds(direction, qty, price),
           cash := t.cash + Proceeds(direction, qty, price),
           fills := t.fills + 1)
      case Transfer(amount) => t.(cash := t.cash + amount)
      case Fee(amount) => t.(cash := t.cash + amount, fees := t.fees + amount)
      case Income(amount) => t.(cash := t.cash + amount, income := t.income + amount)
      case Unsupported(kind) => t.(issues := t.issues + {UnsupportedActivity(kind)})
      case Bad => t.(issues := t.issues + {InvalidActivity})
  }

  function Replay(activities: seq<Activity>): Tally {
    if activities == [] then EMPTY_TALLY
    else Post(Replay(activities[..|activities| - 1]), activities[|activities| - 1])
  }

  predicate ConsistentPosition(p: Position) {
    && p.assetClass == US_EQUITY
    && (p.qty != 0.0 ==> p.qty * p.costBasis > 0.0)
    && (p.qty == 0.0 ==> p.costBasis == 0.0)
  }

  function PositionQty(positions: map<string, Position>, symbol: string): real {
    if symbol in positions then positions[symbol].qty else 0.0
  }

  function Deltas(inventory: map<string, real>, positions: map<string, Position>): map<string, real> {
    map symbol | symbol in inventory.Keys + positions.Keys && Held(inventory, symbol) != PositionQty(positions, symbol)
      :: Held(inventory, symbol) - PositionQty(positions, symbol)
  }

  ghost function BasisOf(positions: map<string, Position>): string -> real {
    symbol => if symbol in positions then positions[symbol].costBasis else 0.0
  }

  ghost function MarkOf(positions: map<string, Position>): string -> real {
    symbol => if symbol in positions then positions[symbol].unrealized else 0.0
  }

  ghost function TotalBasis(positions: map<string, Position>): real {
    SetSum(positions.Keys, BasisOf(positions))
  }

  ghost function TotalUnrealized(positions: map<string, Position>): real {
    SetSum(positions.Keys, MarkOf(positions))
  }

  function BookIssues(t: Tally, snapshot: AccountSnapshot, tolerance: real): set<Issue> {
    var deltas := Deltas(t.inventory, snapshot.positions);
    t.issues
    + (if Abs(t.cash - snapshot.cash) > tolerance then {CashMismatch(t.cash - snapshot.cash)} else {})
    + (if deltas != map[] then {QuantityMismatch(deltas.Keys)} else {})
    + (if exists s :: s in snapshot.positions && !ConsistentPosition(snapshot.positions[s]) then {InconsistentPositions}
      else {})
  }

  function MakeReport(t: Tally, count: nat, snapshot: AccountSnapshot, issues: set<Issue>, basis: real,
                      unrealized: real): LedgerReport {
    var gross := if issues != {} then None else Some(t.fillCash + basis);
    LedgerReport(
      snapshot.observedAt, count, t.fills, issues,
      t.cash - snapshot.cash, Deltas(t.inventory, snapshot.positions),
      gross, t.fees, t.income,
      if gross.None? then None else Some(gross.value + t.fees + t.income),
      unrealized)
  }

  /** The report `reconcile` returns. */
  ghost function Report(activities: seq<Activity>, snapshot: AccountSnapshot, tolerance: real): LedgerReport {
    var t := Replay(activities);
    MakeReport(
      t, |activities|, snapshot, BookIssues(t, snapshot, tolerance),
      TotalBasis(snapshot.positions), TotalUnrealized(snapshot.positions))
  }

  method SumPositions(positions: map<string, Position>) returns (basis: real, unrealized: real)
    ensures basis == TotalBasis(positions) && unrealized == TotalUnrealized(positions)
  {
    basis, unrealized := 0.0, 0.0;
    var left := positions.Keys;
    while left != {}
      invariant left <= positions.Keys
      invariant basis + SetSum(left, BasisOf(positions)) == TotalBasis(positions)
      invariant unrealized + SetSum(left, MarkOf(positions)) == TotalUnrealized(positions)
      decreases left
    {
      var s :| s in left;
      SetSumRemove(left, s, BasisOf(positions));
      SetSumRemove(left, s, MarkOf(positions));
      basis, unrealized := basis + positions[s].costBasis, unrealized + positions[s].unrealized;
      left := left - {s};
    }
  }

  /** The activity loop, its totals updated in place. */
  method PostAll(activities: seq<Activity>) returns (t: Tally)
    ensures t == Replay(activities)
  {
    var inventory: map<string, real> := map[];
    var fillCash, cash, fees, income := 0.0, 0.0, 0.0, 0.0;
    var issues: set<Issue>, ids: set<string>, fills := {}, {}, 0;
    for i := 0 to |activities|
      invariant Replay(activities[..i]) == Tally(inventory, fillCash, cash, fees, income, issues, ids, fills)
    {
      var a := activities[i];
      assert activities[..i + 1][..i] == activities[..i];
      if !Truthy(a.id) || a.id.value in ids {
        issues := issues + {InvalidActivity};
      } else {
        ids := ids + {a.id.value};
        match Read(a)
        case Fill(symbol, direction, qty, price) =>
          fillCash := fillCash + Proceeds(direction, qty, price);
          cash := cash + Proceeds(direction, qty, price);
          inventory := inventory[symbol := Held(inventory, symbol) + Bought(direction, qty)];
          fills := fills + 1;
        case Transfer(amount) => cash := cash + amount;
        case Fee(amount) =>
          cash := cash + amount;
          fees := fees + amount;
        case Income(amount) =>
          cash := cash + amount;
          income := income + amount;
        case Unsupported(kind) => issues := issues + {UnsupportedActivity(kind)};
        case Bad => issues := issues + {InvalidActivity};
      }
    }
    assert activities[..|activities|] == activities;
    t := Tally(inventory, fillCash, cash, fees, income, issues, ids, fills);
  }

  /** The checks of the folded totals against the snapshot, each adding its issue. */
  method CheckBook(t: Tally, snapshot: AccountSnapshot, tolerance: real) returns (issues: set<Issue>)
    ensures issues == BookIssues(t, snapshot, tolerance)
  {
    issues := t.issues;
    var delta, deltas := t.cash - snapshot.cash, Deltas(t.inventory, snapshot.positions);
    if Abs(delta) > tolerance {
      issues := issues + {CashMismatch(delta)};
    }
    if deltas != map[] {
      issues := issues + {QuantityMismatch(deltas.Keys)};
    }
    if exists s :: s in snapshot.positions && !ConsistentPosition(snapshot.positions[s]) {
      issues := issues + {InconsistentPositions};
    }
  }

  /** `reconcile`. */
  method Reconcile(activities: seq<Activity>, snapshot: AccountSnapshot, tolerance: real) returns (report: LedgerReport)
    ensures report == Report(activities, snapshot, tolerance)
  {
    var t := PostAll(activities);
    var issues := CheckBook(t, snapshot, tolerance);
    var basis, unrealized := SumPositions(snapshot.positions);
    report := MakeReport(t, |activities|, snapshot, issues, basis, unrealized);
  }
}
