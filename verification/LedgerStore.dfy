/**
 The ledger store as the coordinator runs it: tables updated in place by one transaction per
 method, with the loops that post, release, reserve, reconcile and settle row by row. Every
 method is proved to commit exactly the step that the ledger model describes, or nothing.
 */
module LedgerStore {
  import opened Options
  import opened Int64
  import opened Sums
  import opened Charges
  import opened Ledger
  import opened LedgerRuns

  /** The sum a commit-time trigger computes over one transaction's entries. */
  method EntryTotal(entries: seq<Entry>) returns (total: int)
    ensures total == Sum(entries, AmountOf())
  {
    total := 0;
    for i := 0 to |entries|
      invariant total == Sum(entries[..i], AmountOf())
    {
      SumAppend(entries[..i], entries[i], AmountOf());
      assert entries[..i] + [entries[i]] == entries[..i + 1];
      total := total + entries[i].amount;
    }
    assert entries[..|entries|] == entries;
  }

  function Get(m: map<NodeId, int>, n: NodeId): int {
    if n in m then m[n] else 0
  }

  /** The exported items of a batch, totalled per host as int64. */
  method ExpectedTotals(items: seq<Item>, b: nat) returns (expected: map<NodeId, int>)
    ensures forall n: NodeId :: Get(expected, n) == Wrap(Sum(items, ExportedFor(b, n)))
  {
    expected := map[];
    for i := 0 to |items|
      invariant forall n: NodeId :: Get(expected, n) == Wrap(Sum(items[..i], ExportedFor(b, n)))
    {
      var item := items[i];
      forall n: NodeId
        ensures Sum(items[..i + 1], ExportedFor(b, n)) == Sum(items[..i], ExportedFor(b, n)) + ExportedFor(b, n)(item)
      {
        SumAppend(items[..i], item, ExportedFor(b, n));
        assert items[..i] + [item] == items[..i + 1];
      }
      WrapAdd(Sum(items[..i], ExportedFor(b, item.node)), item.amount);
      if item.batch == b && item.status == ItemExported {
        expected := expected[item.node := Wrap(Get(expected, item.node) + item.amount)];
      }
    }
    assert items[..|items|] == items;
  }

  /** Subtracts the confirmation row by row: per host, the total of its rows, however split or ordered. */
  method Subtract(start: map<NodeId, int>, rows: seq<Row>) returns (left: map<NodeId, int>)
    requires forall i | 0 <= i < |rows| :: WellFormed(rows[i])
    requires forall n: NodeId :: Fits(Get(start, n))
    ensures forall n: NodeId :: Get(left, n) == Wrap(Get(start, n) - Sum(rows, RowFor(n)))
  {
    left := start;
    for i := 0 to |rows|
      invariant forall n: NodeId :: Get(left, n) == Wrap(Get(start, n) - Sum(rows[..i], RowFor(n)))
    {
      var row := rows[i];
      forall n: NodeId ensures Sum(rows[..i + 1], RowFor(n)) == Sum(rows[..i], RowFor(n)) + RowFor(n)(row) {
        SumAppend(rows[..i], row, RowFor(n));
        assert rows[..i] + [row] == rows[..i + 1];
      }
      WrapAdd(Get(start, row.host) - Sum(rows[..i], RowFor(row.host)), -row.amount.value);
      left := left[row.host := Wrap(Get(left, row.host) - row.amount.value)];
    }
    assert rows[..|rows|] == rows;
  }

  /** Whether a confirmation matches the exported items of a batch. */
  method Compare(items: seq<Item>, b: nat, rows: seq<Row>) returns (matches: bool)
    requires forall i | 0 <= i < |rows| :: WellFormed(rows[i])
    ensures matches <==> Matches(items, b, rows)
  {
    var expected := ExpectedTotals(items, b);
    var left := Subtract(expected, rows);
    forall n: NodeId ensures Get(left, n) == Wrap(Sum(items, ExportedFor(b, n)) - Sum(rows, RowFor(n))) {
      WrapAdd(Sum(items, ExportedFor(b, n)), -Sum(rows, RowFor(n)));
    }
    matches := AllZero(left);
  }

  /** The final scan of the map: no host may be left with a difference. */
  method AllZero(expected: map<NodeId, int>) returns (zero: bool)
    ensures zero <==> forall n: NodeId :: Get(expected, n) == 0
  {
    var keys := expected.Keys;
    while keys != {}
      invariant keys <= expected.Keys
      invariant forall n | n in expected && n !in keys :: expected[n] == 0
    {
      var host :| host in keys;
      if expected[host] != 0 {
        assert Get(expected, host) != 0;
        return false;
      }
      keys := keys - {host};
    }
    zero := true;
  }

  /** The loop that reserves credits for a new batch and adds up what they are worth. */
  method ReserveCredits(start: State, b: nat, rows: seq<nat>) returns (s: State, total: int)
    requires InTable(rows, |start.holds|)
    ensures s == Reserve(start, b, rows)
    ensures total == Wrap(Sum(s.items[|start.items|..], ItemIn(b)))
  {
    s, total := start, 0;
    assert start.items[|start.items|..] == [];
    for k := 0 to |rows|
      invariant InTable(rows[..k], |start.holds|) && s == Reserve(start, b, rows[..k])
      invariant total == Wrap(Sum(s.items[|start.items|..], ItemIn(b)))
    {
      assert rows[..k + 1][..k] == rows[..k];
      var hold := s.holds[rows[k]];
      var item := Item(b, hold.node, rows[k], hold.amount, ItemPending, None);
      ghost var added := s.items[|start.items|..];
      SumAppend(added, item, ItemIn(b));
      WrapAdd(Sum(added, ItemIn(b)), item.amount);
      assert (s.items + [item])[|start.items|..] == added + [item];
      s := s.(items := s.items + [item], holds := s.holds[rows[k] := hold.(state := PayoutPending, batch := Some(b))]);
      total := Wrap(total + item.amount);
    }
    assert rows[..|rows|] == rows;
  }

  /** The loop that writes the payout file. */
  method WriteRows(items: seq<Item>, b: nat) returns (rows: seq<Row>)
    ensures rows == ExportRows(items, b)
  {
    rows := [];
    for i := 0 to |items|
      invariant rows == ExportRows(items[..i], b)
    {
      assert items[..i + 1][..i] == items[..i];
      if items[i].batch == b && items[i].status != ItemVoid {
        rows := rows + [Row(items[i].node, Some(items[i].amount))];
      }
    }
    assert items[..|items|] == items;
  }

  /** The loop that debits every host, marks its items paid and adds up the cash to take. */
  method SettleItems(items: seq<Item>, b: nat, t: nat) returns (debits: seq<Entry>, paid: seq<Item>, total: int)
    ensures debits == PayoutDebits(items, b)
    ensures paid == MapItems(items, MarkPaid(b, t))
    ensures total == Wrap(Sum(debits, AmountOf()))
  {
    debits, paid, total := [], [], 0;
    for i := 0 to |items|
      invariant debits == PayoutDebits(items[..i], b)
      invariant |paid| == i && forall k | 0 <= k < i :: paid[k] == MarkPaid(b, t)(items[k])
      invariant total == Wrap(Sum(debits, AmountOf()))
    {
      assert items[..i + 1][..i] == items[..i];
      var item := items[i];
      if item.batch == b && item.status == ItemExported {
        var debit := Entry(HostAvailable(item.node), item.amount);
        SumAppend(debits, debit, AmountOf());
        WrapAdd(Sum(debits, AmountOf()), item.amount);
        debits := debits + [debit];
        paid := paid + [item.(status := ItemPaid, txn := Some(t))];
        total := Wrap(total + item.amount);
      } else {
        paid := paid + [item];
      }
    }
    assert items[..|items|] == items;
  }

  class Store {
    var txns: seq<Txn>
    var holds: seq<Hold>
    var batches: seq<Batch>
    var items: seq<Item>

    ghost function View(): State
      reads this
    {
      State(txns, holds, batches, items)
    }

    constructor ()
      ensures View() == EMPTY
    {
      txns, holds, batches, items := [], [], [], [];
    }

    method PostAcceptedJob(p: Posting, pricing: Option<Pricing>) returns (r: Result<nat>)
      modifies this
      ensures View() == OrElse(PostAccepted(old(View()), p, pricing), old(View()))
      ensures r.Ok? <==> PostAccepted(old(View()), p, pricing).Ok?
      ensures r.Ok? ==> r.value == |old(txns)|
    {
      if pricing.None? { return Err(NoPricing); }
      var q := pricing.value;
      if exists t | 0 <= t < |txns| :: txns[t].kind == JobAcceptance && txns[t].ref == ForJob(p.job) {
        return Err(AlreadyPosted);
      }
      var credit := HostCredit(p.usage, q.prices);
      if credit < 0 { return Err(NegativeHold); }
      if exists h | 0 <= h < |holds| :: holds[h].attempt == p.attempt { return Err(HoldExists); }
      var entries := AcceptanceEntries(p, q);
      var total := EntryTotal(entries);
      if total != 0 { return Err(Unbalanced); }
      r := Ok(|txns|);
      holds := holds + [Hold(q.node, p.job, p.attempt, |txns|, credit, Pending, AvailableAt(p.receivedAt, p.creditHold),
        None)];
      txns := txns + [Txn(JobAcceptance, ForJob(p.job), None, entries, p.receivedAt)];
    }

    method PostVerificationOverhead(p: Posting, pricing: Option<Pricing>) returns (r: Result<nat>)
      modifies this
      ensures View() == OrElse(PostVerification(old(View()), p, pricing), old(View()))
      ensures r.Ok? <==> PostVerification(old(View()), p, pricing).Ok?
    {
      if pricing.None? { return Err(NoPricing); }
      var q := pricing.value;
      var credit := HostCredit(p.usage, q.prices);
      if credit < 0 { return Err(NegativeHold); }
      if exists h | 0 <= h < |holds| :: holds[h].attempt == p.attempt { return Err(HoldExists); }
      var entries := VerificationEntries(p, q);
      var total := EntryTotal(entries);
      if total != 0 { return Err(Unbalanced); }
      r := Ok(|txns|);
      holds := holds + [Hold(q.node, p.job, p.attempt, |txns|, credit, Pending, AvailableAt(p.receivedAt, p.creditHold),
        None)];
      txns := txns + [Txn(VerificationCost, ForJob(p.job), None, entries, p.receivedAt)];
    }

    /** `due` is the result of the query that locks the releasable holds. */
    method PromoteAvailableCredits(due: seq<nat>, now: Time) returns (released: nat)
      requires DueRows(View(), now, due)
      modifies this
      ensures InTable(due, |old(holds)|) && View() == Release(old(View()), due, now)
      ensures released == |due|
    {
      assert forall i | 0 <= i < |due| :: Releasable(View(), now, due[i]);
      released := 0;
      while released < |due|
        invariant released <= |due| && InTable(due, |old(holds)|) && InTable(due[..released], |old(holds)|)
        invariant |holds| == |old(holds)|
        invariant View() == Release(old(View()), due[..released], now)
      {
        var h := due[released];
        assert due[..released + 1][..released] == due[..released];
        txns := txns + [Txn(CreditRelease, ForHold(h), None, ReleaseEntries(holds[h]), now)];
        holds := holds[h := holds[h].(state := Available)];
        released := released + 1;
      }
      assert due[..|due|] == due;
    }

    /** `payable` is the result of the query that locks the holds to pay out. */
    method CreatePayoutBatch(nodes: Option<set<NodeId>>, payable: seq<nat>) returns (r: Result<nat>)
      requires PayableRows(View(), nodes, payable)
      modifies this
      ensures InTable(payable, |old(holds)|)
      ensures View() == OrElse(CreateBatch(old(View()), payable), old(View()))
      ensures r.Ok? <==> CreateBatch(old(View()), payable).Ok?
      ensures r.Ok? ==> r.value == |old(batches)|
    {
      assert forall i | 0 <= i < |payable| :: Payable(View(), nodes, payable[i]);
      if payable == [] { return Err(NoAvailableCredit); }
      var b := |batches|;
      var s, total := ReserveCredits(State(txns, holds, batches + [Batch(Draft, 0)], items), b, payable);
      if total < 0 { return Err(NegativeTotal); }
      holds, items, batches := s.holds, s.items, s.batches[b := s.batches[b].(total := total)];
      ReserveKeepsTxns(OpenBatch(old(View())), b, payable);
      r := Ok(b);
    }

    method ExportPayoutBatch(b: nat) returns (r: Result<seq<Row>>)
      modifies this
      ensures View() == OrElse(Export(old(View()), b), old(View()))
      ensures r == if b < |old(batches)| then Ok(ExportRows(old(items), b)) else Err(NoSuchBatch)
    {
      if b >= |batches| { return Err(NoSuchBatch); }
      var rows := WriteRows(items, b);
      if batches[b].status == Draft {
        items := MapItems(items, MarkExported(b));
        batches := batches[b := batches[b].(status := Exported)];
      }
      r := Ok(rows);
    }

    method ConfirmPayoutBatch(b: nat, rows: seq<Row>, now: Time) returns (r: Result<nat>)
      modifies this
      ensures View() == OrElse(Confirm(old(View()), b, rows, now), old(View()))
      ensures r.Ok? <==> Confirm(old(View()), b, rows, now).Ok?
    {
      if rows == [] { return Err(NoRows); }
      if b >= |batches| { return Err(NoSuchBatch); }
      if batches[b].status != Exported { return Err(NotExported); }
      if exists i | 0 <= i < |rows| :: !WellFormed(rows[i]) { return Err(MalformedRow); }
      var matches := Compare(items, b, rows);
      if !matches { return Err(Mismatch); }
      var t := |txns|;
      var debits, paid, total := SettleItems(items, b, t);
      if total <= 0 { return Err(NothingPayable); }
      var entries := debits + [Entry(PayoutCash, Wrap(-total))];
      var balance := EntryTotal(entries);
      if balance != 0 { return Err(Unbalanced); }
      txns := txns + [Txn(HostPayout, ForBatch(b), None, entries, now)];
      holds := MapHolds(holds, SettleHold(b));
      batches := batches[b := batches[b].(status := PaidOut)];
      items := paid;
      r := Ok(t);
    }

    method VoidPayoutBatch(b: nat, now: Time) returns (r: Result<Option<nat>>)
      modifies this
      ensures View() == OrElse(VoidBatch(old(View()), b, now), old(View()))
      ensures r.Ok? <==> VoidBatch(old(View()), b, now).Ok?
    {
      if b >= |batches| { return Err(NoSuchBatch); }
      if batches[b].status == Void { return Ok(None); }
      r := Ok(None);
      if batches[b].status == PaidOut {
        var payout := PayoutTxn(items, b);
        if payout.Some? {
          var t := payout.value;
          if t >= |txns| || txns[t].entries == [] { return Err(NoEntries); }
          var entries := Negated(txns[t].entries);
          var balance := EntryTotal(entries);
          if balance != 0 { return Err(Unbalanced); }
          r := Ok(Some(|txns|));
          txns := txns + [Txn(Reversal, txns[t].ref, Some(t), entries, now)];
        }
        holds := MapHolds(holds, ReverseHold(b));
      } else {
        holds := MapHolds(holds, FreeHold(b));
      }
      items := MapItems(items, VoidItem(b));
      batches := batches[b := batches[b].(status := Void)];
    }
  }
}
