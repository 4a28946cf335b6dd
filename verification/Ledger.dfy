/**
 The double-entry ledger, the host credit holds and the payout tables, and what each SQL
 transaction of the ledger store does to them. A row's identifier is its index in the table;
 a transaction that fails is rolled back, so a step either yields a new state or an error.
 */
module Ledger {
  import opened Options
  import opened Int64
  import opened Sums
  import opened Charges

  type NodeId = nat
  type OrgId = nat
  type JobId = nat
  type AttemptId = nat
  type Time = int

  const SECOND: int := 1_000_000_000
  const DEFAULT_CREDIT_HOLD: int := 24 * 3600 * SECOND

  datatype Account =
    | CustomerUsage(org: OrgId)
    | HostPending(node: NodeId)
    | HostAvailable(node: NodeId)
    | Margin
    | Verification
    | PayoutCash
    | FailedAttempts

  datatype TxnKind = JobAcceptance | CreditRelease | HostPayout | Reversal | VerificationCost | FailedAttemptCost
  datatype Reference = ForJob(job: JobId) | ForHold(hold: nat) | ForBatch(batch: nat)

  datatype Entry = Entry(account: Account, amount: int)
  datatype Txn = Txn(kind: TxnKind, ref: Reference, reverses: Option<nat>, entries: seq<Entry>, at: Time)

  datatype HoldState = Pending | Available | PayoutPending | Paid | Reversed
  datatype Hold = Hold(node: NodeId, job: JobId, attempt: AttemptId, txn: nat, amount: int, state: HoldState,
                       availableAt: Time, batch: Option<nat>)

  datatype BatchStatus = Draft | Exported | PaidOut | Void
  datatype Batch = Batch(status: BatchStatus, total: int)

  datatype ItemStatus = ItemPending | ItemExported | ItemPaid | ItemVoid
  datatype Item = Item(batch: nat, node: NodeId, hold: nat, amount: int, status: ItemStatus, txn: Option<nat>)

  datatype State = State(txns: seq<Txn>, holds: seq<Hold>, batches: seq<Batch>, items: seq<Item>)

  const EMPTY: State := State([], [], [], [])

  datatype Error =
    | NoPricing | AlreadyPosted | NegativeHold | HoldExists | Unbalanced
    | NoAvailableCredit | NegativeTotal | NoSuchBatch | NoRows | NotExported | MalformedRow | Mismatch
    | NothingPayable | NoEntries | OutOfRange
  datatype Result<+T> = Ok(value: T) | Err(error: Error)

  // ---------------------------------------------------------------- measures over rows

  ghost function AmountOf(): Entry -> int {
    (e: Entry) => e.amount
  }

  /** What a trigger on posted transactions checks at commit. */
  ghost predicate Balanced(entries: seq<Entry>) {
    Sum(entries, AmountOf()) == 0
  }

  ghost function AmountOn(a: Account): Entry -> int {
    (e: Entry) => if e.account == a then e.amount else 0
  }

  ghost function EffectOn(a: Account): Txn -> int {
    (t: Txn) => Sum(t.entries, AmountOn(a))
  }

  ghost function Balance(s: State, a: Account): int {
    Sum(s.txns, EffectOn(a))
  }

  ghost function PendingOf(n: NodeId): Hold -> int {
    (h: Hold) => if h.node == n && h.state == Pending then h.amount else 0
  }

  predicate Owed(state: HoldState) {
    state == Available || state == PayoutPending || state == Reversed
  }

  ghost function OwedTo(n: NodeId): Hold -> int {
    (h: Hold) => if h.node == n && Owed(h.state) then h.amount else 0
  }

  ghost function PaidAmount(): Hold -> int {
    (h: Hold) => if h.state == Paid then h.amount else 0
  }

  ghost function HeldIn(b: nat): Hold -> int {
    (h: Hold) => if h.batch == Some(b) then h.amount else 0
  }

  ghost function HeldInFor(b: nat, n: NodeId): Hold -> int {
    (h: Hold) => if h.batch == Some(b) && h.node == n then h.amount else 0
  }

  ghost function ItemIn(b: nat): Item -> int {
    (i: Item) => if i.batch == b then i.amount else 0
  }

  ghost function ItemInFor(b: nat, n: NodeId): Item -> int {
    (i: Item) => if i.batch == b && i.node == n then i.amount else 0
  }

  ghost function AcceptanceOf(j: JobId): Txn -> int {
    (t: Txn) => if t.kind == JobAcceptance && t.ref == ForJob(j) then 1 else 0
  }

  ghost function VerificationOf(j: JobId): Txn -> int {
    (t: Txn) => if t.kind == VerificationCost && t.ref == ForJob(j) then 1 else 0
  }

  ghost function ReleaseOf(h: nat): Txn -> int {
    (t: Txn) => if t.kind == CreditRelease && t.ref == ForHold(h) then 1 else 0
  }

  // ---------------------------------------------------------------- postings

  datatype Pricing = Pricing(org: OrgId, node: NodeId, prices: Prices)
  datatype Posting = Posting(job: JobId, attempt: AttemptId, receivedAt: Time, creditHold: int, usage: Usage,
    overhead: int)

  function AvailableAt(receivedAt: Time, creditHold: int): Time {
    receivedAt + if creditHold <= 0 then DEFAULT_CREDIT_HOLD else creditHold
  }

  function OverheadEntries(overhead: int): seq<Entry> {
    if ClampedOverhead(overhead) > 0 then [Entry(Verification, ClampedOverhead(overhead))] else []
  }

  function AcceptanceEntries(p: Posting, q: Pricing): seq<Entry> {
    [Entry(CustomerUsage(q.org), CustomerCharge(p.usage, q.prices)),
     Entry(HostPending(q.node), Wrap(-HostCredit(p.usage, q.prices)))]
    + OverheadEntries(p.overhead)
    + [Entry(Margin, Wrap(-PlatformMargin(p.usage, q.prices, p.overhead)))]
  }

  predicate HasAcceptance(s: State, j: JobId) {
    exists t | 0 <= t < |s.txns| :: s.txns[t].kind == JobAcceptance && s.txns[t].ref == ForJob(j)
  }

  predicate HasHold(s: State, a: AttemptId) {
    exists h | 0 <= h < |s.holds| :: s.holds[h].attempt == a
  }

  function NewHold(s: State, p: Posting, q: Pricing): Hold {
    Hold(q.node, p.job, p.attempt, |s.txns|, HostCredit(p.usage, q.prices), Pending,
      AvailableAt(p.receivedAt, p.creditHold), None)
  }

  function WithPosting(s: State, t: Txn, h: Hold): State {
    s.(txns := s.txns + [t], holds := s.holds + [h])
  }

  ghost function PostAccepted(s: State, p: Posting, pricing: Option<Pricing>): Result<State> {
    match pricing
    case None => Err(NoPricing)
    case Some(q) =>
      if HasAcceptance(s, p.job) then Err(AlreadyPosted)
      else if HostCredit(p.usage, q.prices) < 0 then Err(NegativeHold)
      else if HasHold(s, p.attempt) then Err(HoldExists)
      else if !Balanced(AcceptanceEntries(p, q)) then Err(Unbalanced)
      else Ok(WithPosting(s, Txn(JobAcceptance, ForJob(p.job), None, AcceptanceEntries(p, q), p.receivedAt),
        NewHold(s, p, q)))
  }

  function VerificationEntries(p: Posting, q: Pricing): seq<Entry> {
    [Entry(Verification, HostCredit(p.usage, q.prices)),
      Entry(HostPending(q.node), Wrap(-HostCredit(p.usage, q.prices)))]
  }

  ghost function PostVerification(s: State, p: Posting, pricing: Option<Pricing>): Result<State> {
    match pricing
    case None => Err(NoPricing)
    case Some(q) =>
      if HostCredit(p.usage, q.prices) < 0 then Err(NegativeHold)
      else if HasHold(s, p.attempt) then Err(HoldExists)
      else if !Balanced(VerificationEntries(p, q)) then Err(Unbalanced)
      else Ok(WithPosting(s, Txn(VerificationCost, ForJob(p.job), None, VerificationEntries(p, q), p.receivedAt),
        NewHold(s, p, q)))
  }

  // ---------------------------------------------------------------- releasing credit

  predicate Releasable(s: State, now: Time, h: nat) {
    h < |s.holds| && s.holds[h].state == Pending && s.holds[h].availableAt <= now
  }

  predicate Distinct(rows: seq<nat>) {
    forall i, j | 0 <= i < j < |rows| :: rows[i] != rows[j]
  }

  predicate InTable(rows: seq<nat>, size: nat) {
    forall i | 0 <= i < |rows| :: rows[i] < size
  }

  predicate AllReleasable(s: State, now: Time, rows: seq<nat>) {
    forall i | 0 <= i < |rows| :: Releasable(s, now, rows[i])
  }

  /** The rows the release query returns: every due hold once, in some order. */
  ghost predicate DueRows(s: State, now: Time, rows: seq<nat>) {
    && Distinct(rows)
    && AllReleasable(s, now, rows)
    && (forall h: nat | Releasable(s, now, h) :: h in rows)
  }

  function ReleaseEntries(h: Hold): seq<Entry> {
    [Entry(HostPending(h.node), h.amount), Entry(HostAvailable(h.node), -h.amount)]
  }

  function ReleaseOne(s: State, h: nat, now: Time): State
    requires h < |s.holds|
  {
    s.(txns := s.txns + [Txn(CreditRelease, ForHold(h), None, ReleaseEntries(s.holds[h]), now)],
       holds := s.holds[h := s.holds[h].(state := Available)])
  }

  function Release(s: State, rows: seq<nat>, now: Time): (r: State)
    requires InTable(rows, |s.holds|)
    ensures |r.holds| == |s.holds|
  {
    if rows == [] then s else ReleaseOne(Release(s, rows[..|rows| - 1], now), rows[|rows| - 1], now)
  }

  // ---------------------------------------------------------------- payout batches

  predicate Payable(s: State, nodes: Option<set<NodeId>>, h: nat) {
    && h < |s.holds| && s.holds[h].state == Available && s.holds[h].amount > 0
    && (nodes.Some? ==> s.holds[h].node in nodes.value)
  }

  predicate AllPayable(s: State, nodes: Option<set<NodeId>>, rows: seq<nat>) {
    forall i | 0 <= i < |rows| :: Payable(s, nodes, rows[i])
  }

  /** The rows the payout query returns: every payable hold once, in some order. */
  ghost predicate PayableRows(s: State, nodes: Option<set<NodeId>>, rows: seq<nat>) {
    && Distinct(rows)
    && AllPayable(s, nodes, rows)
    && (forall h: nat | Payable(s, nodes, h) :: h in rows)
  }

  function ReserveOne(s: State, b: nat, h: nat): State
    requires h < |s.holds|
  {
    var hold := s.holds[h];
    s.(items := s.items + [Item(b, hold.node, h, hold.amount, ItemPending, None)],
       holds := s.holds[h := hold.(state := PayoutPending, batch := Some(b))])
  }

  function Reserve(s: State, b: nat, rows: seq<nat>): (r: State)
    requires InTable(rows, |s.holds|)
    ensures |r.holds| == |s.holds| && |r.batches| == |s.batches| && s.items <= r.items
  {
    if rows == [] then s else ReserveOne(Reserve(s, b, rows[..|rows| - 1]), b, rows[|rows| - 1])
  }

  lemma {:induction false} ReserveKeepsTxns(s: State, b: nat, rows: seq<nat>)
    requires InTable(rows, |s.holds|)
    ensures Reserve(s, b, rows).txns == s.txns
  {
    if rows != [] {
      ReserveKeepsTxns(s, b, rows[..|rows| - 1]);
    }
  }

  function OpenBatch(s: State): State {
    s.(batches := s.batches + [Batch(Draft, 0)])
  }

  function WithTotal(s: State, b: nat, total: int): State
    requires b < |s.batches|
  {
    s.(batches := s.batches[b := s.batches[b].(total := total)])
  }

  ghost function CreateBatch(s: State, rows: seq<nat>): Result<State>
    requires InTable(rows, |s.holds|)
  {
    var b := |s.batches|;
    var reserved := Reserve(OpenBatch(s), b, rows);
    var total := Wrap(Sum(reserved.items[|s.items|..], ItemIn(b)));
    if rows == [] then Err(NoAvailableCredit)
    else if total < 0 then Err(NegativeTotal)
    else Ok(WithTotal(reserved, b, total))
  }

  function MapItems(items: seq<Item>, f: Item -> Item): (r: seq<Item>)
    ensures |r| == |items|
    ensures forall i | 0 <= i < |items| :: r[i] == f(items[i])
  {
    seq(|items|, i requires 0 <= i < |items| => f(items[i]))
  }

  function MapHolds(holds: seq<Hold>, f: Hold -> Hold): (r: seq<Hold>)
    ensures |r| == |holds|
    ensures forall i | 0 <= i < |holds| :: r[i] == f(holds[i])
  {
    seq(|holds|, i requires 0 <= i < |holds| => f(holds[i]))
  }

  function MarkExported(b: nat): Item -> Item {
    (i: Item) => if i.batch == b && i.status == ItemPending then i.(status := ItemExported) else i
  }

  datatype Row = Row(host: NodeId, amount: Option<int>)

  /** The rows of the payout file: one for every item of the batch that is not void. */
  function ExportRows(items: seq<Item>, b: nat): seq<Row> {
    if items == [] then []
    else
      var last := items[|items| - 1];
      ExportRows(items[..|items| - 1], b)
      + if last.batch == b && last.status != ItemVoid then [Row(last.node, Some(last.amount))] else []
  }

  function Export(s: State, b: nat): Result<State> {
    if b >= |s.batches| then Err(NoSuchBatch)
    else if s.batches[b].status != Draft then Ok(s)
    else
      Ok(s.(items := MapItems(s.items, MarkExported(b)),
            batches := s.batches[b := s.batches[b].(status := Exported)]))
  }

  predicate WellFormed(row: Row) {
    row.amount.Some? && Fits(row.amount.value)
  }

  ghost function RowFor(n: NodeId): Row -> int {
    (r: Row) => if r.host == n && r.amount.Some? then r.amount.value else 0
  }

  ghost function ExportedFor(b: nat, n: NodeId): Item -> int {
    (i: Item) => if i.batch == b && i.status == ItemExported && i.node == n then i.amount else 0
  }

  /** Per host, the exported items and the confirmation differ by nothing that an int64 can show. */
  ghost predicate Matches(items: seq<Item>, b: nat, rows: seq<Row>) {
    forall n: NodeId :: Wrap(Sum(items, ExportedFor(b, n)) - Sum(rows, RowFor(n))) == 0
  }

  function PayoutDebits(items: seq<Item>, b: nat): seq<Entry> {
    if items == [] then []
    else
      var last := items[|items| - 1];
      PayoutDebits(items[..|items| - 1], b)
      + if last.batch == b && last.status == ItemExported then [Entry(HostAvailable(last.node), last.amount)] else []
  }

  ghost function PayoutTotal(s: State, b: nat): int {
    Wrap(Sum(PayoutDebits(s.items, b), AmountOf()))
  }

  ghost function PayoutEntries(s: State, b: nat): seq<Entry> {
    PayoutDebits(s.items, b) + [Entry(PayoutCash, Wrap(-PayoutTotal(s, b)))]
  }

  function MarkPaid(b: nat, t: nat): Item -> Item {
    (i: Item) => if i.batch == b && i.status == ItemExported then i.(status := ItemPaid, txn := Some(t)) else i
  }

  function SettleHold(b: nat): Hold -> Hold {
    (h: Hold) => if h.batch == Some(b) && h.state == PayoutPending then h.(state := Paid) else h
  }

  ghost function Settled(s: State, b: nat, now: Time): State
    requires b < |s.batches|
  {
    State(s.txns + [Txn(HostPayout, ForBatch(b), None, PayoutEntries(s, b), now)],
          MapHolds(s.holds, SettleHold(b)),
          s.batches[b := s.batches[b].(status := PaidOut)],
          MapItems(s.items, MarkPaid(b, |s.txns|)))
  }

  ghost function Confirm(s: State, b: nat, rows: seq<Row>, now: Time): Result<State> {
    if rows == [] then Err(NoRows)
    else if b >= |s.batches| then Err(NoSuchBatch)
    else if s.batches[b].status != Exported then Err(NotExported)
    else if exists i | 0 <= i < |rows| :: !WellFormed(rows[i]) then Err(MalformedRow)
    else if !Matches(s.items, b, rows) then Err(Mismatch)
    else if PayoutTotal(s, b) <= 0 then Err(NothingPayable)
    else if !Balanced(PayoutEntries(s, b)) then Err(Unbalanced)
    else Ok(Settled(s, b, now))
  }

  function Negated(entries: seq<Entry>): (r: seq<Entry>)
    ensures |r| == |entries|
    ensures forall i | 0 <= i < |r| :: r[i] == Entry(entries[i].account, Wrap(-entries[i].amount))
  {
    seq(|entries|, i requires 0 <= i < |entries| => Entry(entries[i].account, Wrap(-entries[i].amount)))
  }

  /** The ledger transaction recorded on some item of the batch, if any. */
  function PayoutTxn(items: seq<Item>, b: nat): (t: Option<nat>)
    ensures t.Some? ==> exists i | 0 <= i < |items| :: items[i].batch == b && items[i].txn == t
    ensures t.None? ==> forall i | 0 <= i < |items| && items[i].batch == b :: items[i].txn.None?
  {
    if items == [] then None
    else if items[0].batch == b && items[0].txn.Some? then items[0].txn
    else
      assert forall i | 1 <= i < |items| :: items[i] == items[1..][i - 1];
      PayoutTxn(items[1..], b)
  }

  function VoidItem(b: nat): Item -> Item {
    (i: Item) => if i.batch == b then i.(status := ItemVoid) else i
  }

  function ReverseHold(b: nat): Hold -> Hold {
    (h: Hold) => if h.batch == Some(b) then h.(state := Reversed) else h
  }

  function FreeHold(b: nat): Hold -> Hold {
    (h: Hold) => if h.batch == Some(b) && h.state == PayoutPending then h.(state := Available, batch := None) else h
  }

  ghost function ReversedTxns(s: State, b: nat, now: Time): Result<seq<Txn>> {
    match PayoutTxn(s.items, b)
    case None => Ok(s.txns)
    case Some(t) =>
      if t >= |s.txns| || s.txns[t].entries == [] then Err(NoEntries)
      else
        var entries := Negated(s.txns[t].entries);
        if !Balanced(entries) then Err(Unbalanced)
        else Ok(s.txns + [Txn(Reversal, s.txns[t].ref, Some(t), entries, now)])
  }

  ghost function VoidBatch(s: State, b: nat, now: Time): Result<State> {
    if b >= |s.batches| then Err(NoSuchBatch)
    else if s.batches[b].status == Void then Ok(s)
    else
      var items := MapItems(s.items, VoidItem(b));
      var batches := s.batches[b := s.batches[b].(status := Void)];
      if s.batches[b].status == PaidOut then
        match ReversedTxns(s, b, now)
        case Err(e) => Err(e)
        case Ok(txns) => Ok(State(txns, MapHolds(s.holds, ReverseHold(b)), batches, items))
      else Ok(State(s.txns, MapHolds(s.holds, FreeHold(b)), batches, items))
  }

  // ---------------------------------------------------------------- the economics report

  predicate InWindow(t: Txn, from: Time, until: Time) {
    from <= t.at < until
  }

  datatype AccountType = Customers | PendingHosts | AvailableHosts | Margins | Verifications | Cash | FailedCosts

  function TypeOf(a: Account): AccountType {
    match a
    case CustomerUsage(_) => Customers
    case HostPending(_) => PendingHosts
    case HostAvailable(_) => AvailableHosts
    case Margin => Margins
    case Verification => Verifications
    case PayoutCash => Cash
    case FailedAttempts => FailedCosts
  }

  ghost function AmountIn(accounts: AccountType): Entry -> int {
    (e: Entry) => if TypeOf(e.account) == accounts then e.amount else 0
  }

  ghost function CellOf(kind: TxnKind, accounts: AccountType, from: Time, until: Time): Txn -> int {
    (t: Txn) => if t.kind == kind && InWindow(t, from, until) then Sum(t.entries, AmountIn(accounts)) else 0
  }

  /** One GROUP BY cell: entries of one account type in posted transactions of one kind, added up exactly. */
  ghost function Cell(s: State, kind: TxnKind, accounts: AccountType, from: Time, until: Time): int {
    Sum(s.txns, CellOf(kind, accounts, from, until))
  }

  /** Every cell of the window, reported on or not, can be read into an int64. */
  ghost predicate CellsFit(s: State, from: Time, until: Time) {
    forall kind: TxnKind, accounts: AccountType :: Fits(Cell(s, kind, accounts, from, until))
  }

  datatype Report = Report(revenue: int, hostCredits: int, verification: int, failedAttempts: int, contribution: int)

  /** The report's five figures from its five cells, in int64. */
  function ReportOf(revenue: int, pending: int, accepted: int, checked: int, failed: int): Report {
    var hostCredits, verification := Wrap(-pending), Wrap(accepted + checked);
    Report(revenue, hostCredits, verification, failed, Wrap(Wrap(Wrap(revenue - hostCredits) - verification) - failed))
  }

  ghost function Economics(s: State, from: Time, until: Time): Result<Report> {
    if !CellsFit(s, from, until) then Err(OutOfRange)
    else
      Ok(ReportOf(Cell(s, JobAcceptance, Customers, from, until), Cell(s, JobAcceptance, PendingHosts, from, until),
                  Cell(s, JobAcceptance, Verifications, from, until),
                  Cell(s, VerificationCost, Verifications, from, until),
                  Cell(s, FailedAttemptCost, FailedCosts, from, until)))
  }
}
