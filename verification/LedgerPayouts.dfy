/** Creating, exporting, confirming and voiding payout batches keep the ledger's invariant. */
module LedgerPayouts {
  import opened Options
  import opened Int64
  import opened Sums
  import opened Ledger
  import opened LedgerInvariant
  import opened LedgerPostings

  // ---------------------------------------------------------------- creating a batch

  lemma OpenKeepsCore(s: State)
    requires Core(s)
    ensures Core(OpenBatch(s))
  {
    var s' := OpenBatch(s);
    var b := |s.batches|;
    assert forall a: Account :: Balance(s', a) == Balance(s, a);
    forall n: NodeId ensures HostReconciled(s', n) {
      assert HostReconciled(s, n);
    }
    forall h | 0 <= h < |s'.holds| ensures HoldOk(s', s'.holds[h]) {
      assert HoldOk(s, s.holds[h]);
    }
    forall i | 0 <= i < |s'.items| ensures ItemOk(s', s'.items[i]) {
      assert ItemOk(s, s.items[i]);
    }
    PaidItemsSurvive(s, s');
    HistoryKept(s, s');
    forall c: nat | c < |s'.batches| && s'.batches[c].status != Void ensures BatchAgrees(s', c) {
      if c < b {
        assert BatchAgrees(s, c);
      } else {
        NothingIn(s, b);
      }
    }
  }

  /** A batch number not yet issued has neither holds nor items. */
  lemma NothingIn(s: State, b: nat)
    requires RowsOk(s) && b >= |s.batches|
    ensures Sum(s.items, ItemIn(b)) == 0 && Sum(s.holds, HeldIn(b)) == 0
    ensures forall n: NodeId :: Sum(s.items, ItemInFor(b, n)) == 0 && Sum(s.holds, HeldInFor(b, n)) == 0
  {
    assert forall i | 0 <= i < |s.items| :: ItemOk(s, s.items[i]);
    assert forall h | 0 <= h < |s.holds| :: HoldOk(s, s.holds[h]);
    SumZero(s.items, ItemIn(b));
    SumZero(s.holds, HeldIn(b));
    forall n: NodeId ensures Sum(s.items, ItemInFor(b, n)) == 0 && Sum(s.holds, HeldInFor(b, n)) == 0 {
      SumZero(s.items, ItemInFor(b, n));
      SumZero(s.holds, HeldInFor(b, n));
    }
  }

  lemma ItemAppended(s: State, i: Item, s': State)
    requires s'.items == s.items + [i]
    ensures forall b: nat :: Sum(s'.items, ItemIn(b)) == Sum(s.items, ItemIn(b)) + ItemIn(b)(i)
    ensures forall b: nat, n: NodeId ::
            Sum(s'.items, ItemInFor(b, n)) == Sum(s.items, ItemInFor(b, n)) + ItemInFor(b, n)(i)
  {
    forall b: nat ensures Sum(s'.items, ItemIn(b)) == Sum(s.items, ItemIn(b)) + ItemIn(b)(i) {
      SumAppend(s.items, i, ItemIn(b));
    }
    forall b: nat, n: NodeId
      ensures Sum(s'.items, ItemInFor(b, n)) == Sum(s.items, ItemInFor(b, n)) + ItemInFor(b, n)(i)
    {
      SumAppend(s.items, i, ItemInFor(b, n));
    }
  }

  ghost predicate CanReserve(s: State, b: nat, h: nat) {
    && b < |s.batches| && s.batches[b].status == Draft
    && h < |s.holds| && s.holds[h].state == Available && s.holds[h].amount > 0
  }

  lemma ReserveKeepsRows(s: State, b: nat, h: nat)
    requires RowsOk(s) && CanReserve(s, b, h)
    ensures RowsOk(ReserveOne(s, b, h))
  {
    var s' := ReserveOne(s, b, h);
    assert HoldOk(s, s.holds[h]);
    forall g | 0 <= g < |s'.holds| ensures HoldOk(s', s'.holds[g]) {
      assert HoldOk(s, s.holds[g]);
    }
    forall i | 0 <= i < |s'.items| ensures ItemOk(s', s'.items[i]) {
      if i < |s.items| {
        assert ItemOk(s, s.items[i]);
      }
    }
    forall i, j | 0 <= i < j < |s'.items| && s'.items[i].status != ItemVoid && s'.items[j].status != ItemVoid
      ensures s'.items[i].hold != s'.items[j].hold
    {
      assert ItemOk(s, s.items[i]);
    }
  }

  lemma ReserveKeepsSums(s: State, b: nat, h: nat)
    requires RowsOk(s) && LiveBatchesAgree(s) && Reconciled(s) && CanReserve(s, b, h)
    ensures LiveBatchesAgree(ReserveOne(s, b, h)) && Reconciled(ReserveOne(s, b, h))
  {
    var s' := ReserveOne(s, b, h);
    assert HoldOk(s, s.holds[h]);
    HoldUpdated(s, h, s'.holds[h], s');
    ItemAppended(s, s'.items[|s.items|], s');
    forall c: nat | c < |s'.batches| && s'.batches[c].status != Void ensures BatchAgrees(s', c) {
      assert BatchAgrees(s, c);
    }
    forall n: NodeId ensures HostReconciled(s', n) {
      assert HostReconciled(s, n);
      assert Balance(s', HostPending(n)) == Balance(s, HostPending(n));
      assert Balance(s', HostAvailable(n)) == Balance(s, HostAvailable(n));
    }
    assert Balance(s', PayoutCash) == Balance(s, PayoutCash);
  }

  lemma ReserveKeepsPaid(s: State, b: nat, h: nat)
    requires RowsOk(s) && PaidItemsPosted(s) && CanReserve(s, b, h)
    ensures PaidItemsPosted(ReserveOne(s, b, h))
  {
    var s' := ReserveOne(s, b, h);
    ItemAppended(s, s'.items[|s.items|], s');
    forall i | 0 <= i < |s'.items| && s'.items[i].status == ItemPaid
      ensures s'.items[i].txn.Some? && PaysBatch(s', s'.items[i].txn.value, s'.items[i].batch)
    {
      assert ItemOk(s, s.items[i]);
      assert PaysBatch(s, s.items[i].txn.value, s.items[i].batch);
    }
  }

  lemma ReserveOneKeepsCore(s: State, b: nat, h: nat)
    requires Core(s) && CanReserve(s, b, h)
    ensures Core(ReserveOne(s, b, h))
  {
    ReserveKeepsRows(s, b, h);
    ReserveKeepsSums(s, b, h);
    ReserveKeepsPaid(s, b, h);
    HistoryKept(s, ReserveOne(s, b, h));
  }

  lemma {:induction false} ReservedRows(s: State, b: nat, rows: seq<nat>, h: nat)
    requires InTable(rows, |s.holds|) && h < |s.holds|
    ensures Reserve(s, b, rows).holds[h]
            == if h in rows then s.holds[h].(state := PayoutPending, batch := Some(b)) else s.holds[h]
    ensures Reserve(s, b, rows).txns == s.txns && Reserve(s, b, rows).batches == s.batches
    ensures |Reserve(s, b, rows).items| == |s.items| + |rows| && s.items <= Reserve(s, b, rows).items
    ensures forall i | |s.items| <= i < |Reserve(s, b, rows).items| :: Reserve(s, b, rows).items[i].batch == b
  {
    if rows != [] {
      var n := |rows| - 1;
      ReservedRows(s, b, rows[..n], h);
      ReservedRows(s, b, rows[..n], rows[n]);
      assert rows == rows[..n] + [rows[n]];
    }
  }

  lemma PayablePrefix(s: State, nodes: Option<set<NodeId>>, rows: seq<nat>, n: nat)
    requires Distinct(rows) && AllPayable(s, nodes, rows) && n <= |rows|
    ensures Distinct(rows[..n]) && AllPayable(s, nodes, rows[..n])
    ensures InTable(rows, |s.holds|) && InTable(rows[..n], |s.holds|)
    ensures n < |rows| ==> rows[n] !in rows[..n] && Payable(s, nodes, rows[n])
  {
    forall i | 0 <= i < |rows| ensures rows[i] < |s.holds| {
      assert Payable(s, nodes, rows[i]);
    }
  }

  lemma NextReservable(s: State, b: nat, nodes: Option<set<NodeId>>, rows: seq<nat>, n: nat)
    requires Distinct(rows) && AllPayable(s, nodes, rows) && n < |rows|
    requires b < |s.batches| && s.batches[b].status == Draft
    ensures InTable(rows[..n], |s.holds|) && CanReserve(Reserve(s, b, rows[..n]), b, rows[n])
  {
    PayablePrefix(s, nodes, rows, n);
    ReservedRows(s, b, rows[..n], rows[n]);
  }

  lemma {:induction false} ReserveKeepsCore(s: State, b: nat, nodes: Option<set<NodeId>>, rows: seq<nat>)
    requires Distinct(rows) && AllPayable(s, nodes, rows)
    requires b < |s.batches| && s.batches[b].status == Draft
    requires Core(s)
    ensures InTable(rows, |s.holds|)
    ensures Core(Reserve(s, b, rows))
  {
    PayablePrefix(s, nodes, rows, |rows|);
    if rows != [] {
      var n := |rows| - 1;
      PayablePrefix(s, nodes, rows, n);
      ReserveKeepsCore(s, b, nodes, rows[..n]);
      NextReservable(s, b, nodes, rows, n);
      ReserveOneKeepsCore(Reserve(s, b, rows[..n]), b, rows[n]);
    }
  }

  lemma TotalKeepsCore(s: State, b: nat, total: int)
    requires Core(s) && b < |s.batches|
    ensures Core(WithTotal(s, b, total))
  {
    var s' := WithTotal(s, b, total);
    forall n: NodeId ensures HostReconciled(s', n) {
      assert HostReconciled(s, n);
    }
    forall h | 0 <= h < |s'.holds| ensures HoldOk(s', s'.holds[h]) {
      assert HoldOk(s, s.holds[h]);
    }
    forall i | 0 <= i < |s'.items| ensures ItemOk(s', s'.items[i]) {
      assert ItemOk(s, s.items[i]);
    }
    forall c: nat | c < |s'.batches| && s'.batches[c].status != Void ensures BatchAgrees(s', c) {
      assert BatchAgrees(s, c);
    }
    PaidItemsSurvive(s, s');
    HistoryKept(s, s');
  }

  /** Items appended for one batch leave every other batch's sum alone. */
  lemma {:induction false} ReserveOthers(s: State, b: nat, rows: seq<nat>, c: nat)
    requires InTable(rows, |s.holds|) && b != c
    ensures Sum(Reserve(s, b, rows).items, ItemIn(c)) == Sum(s.items, ItemIn(c))
  {
    if rows != [] {
      var n := |rows| - 1;
      ReserveOthers(s, b, rows[..n], c);
      var mid := Reserve(s, b, rows[..n]);
      ItemAppended(mid, ReserveOne(mid, b, rows[n]).items[|mid.items|], ReserveOne(mid, b, rows[n]));
    }
  }

  lemma OlderBatch(s: State, s': State, c: nat)
    requires BatchesOk(s) && c < |s.batches| && c < |s'.batches| && s'.batches[c] == s.batches[c]
    requires s.items <= s'.items && Sum(s'.items, ItemIn(c)) == Sum(s.items, ItemIn(c))
    ensures BatchOk(s', c)
  {
    assert BatchOk(s, c);
    var i :| 0 <= i < |s.items| && s.items[i].batch == c;
    assert s'.items[i] == s.items[i];
  }

  lemma CreatedBatches(s: State, rows: seq<nat>, total: int)
    requires RowsOk(s) && BatchesOk(s) && InTable(rows, |s.holds|) && rows != []
    requires total == Wrap(Sum(Reserve(OpenBatch(s), |s.batches|, rows).items[|s.items|..], ItemIn(|s.batches|)))
    ensures |Reserve(OpenBatch(s), |s.batches|, rows).batches| == |s.batches| + 1
    ensures BatchesOk(WithTotal(Reserve(OpenBatch(s), |s.batches|, rows), |s.batches|, total))
  {
    var b := |s.batches|;
    var reserved := Reserve(OpenBatch(s), b, rows);
    ReservedRows(OpenBatch(s), b, rows, rows[0]);
    NothingIn(s, b);
    SumConcat(s.items, reserved.items[|s.items|..], ItemIn(b));
    assert s.items + reserved.items[|s.items|..] == reserved.items;
    var s' := WithTotal(reserved, b, total);
    forall c: nat | c < |s'.batches| ensures BatchOk(s', c) {
      if c == b {
        assert s'.items[|s.items|].batch == b;
      } else {
        ReserveOthers(OpenBatch(s), b, rows, c);
        OlderBatch(s, s', c);
      }
    }
  }

  lemma OpenKeepsPayable(s: State, nodes: Option<set<NodeId>>, rows: seq<nat>)
    requires AllPayable(s, nodes, rows)
    ensures AllPayable(OpenBatch(s), nodes, rows)
  {
    forall i | 0 <= i < |rows| ensures Payable(OpenBatch(s), nodes, rows[i]) {
      assert Payable(s, nodes, rows[i]);
    }
  }

  lemma CreateKeepsInv(s: State, nodes: Option<set<NodeId>>, rows: seq<nat>)
    requires Inv(s) && Distinct(rows) && AllPayable(s, nodes, rows)
    ensures InTable(rows, |s.holds|)
    ensures CreateBatch(s, rows).Ok? ==> Inv(CreateBatch(s, rows).value)
  {
    PayablePrefix(s, nodes, rows, |rows|);
    if CreateBatch(s, rows).Ok? {
      var b := |s.batches|;
      var total := Wrap(Sum(Reserve(OpenBatch(s), b, rows).items[|s.items|..], ItemIn(b)));
      CreatedCore(s, nodes, rows, total);
      CreatedBatches(s, rows, total);
      var s' := WithTotal(Reserve(OpenBatch(s), b, rows), b, total);
      assert CreateBatch(s, rows) == Ok(s');
    }
  }

  lemma CreatedCore(s: State, nodes: Option<set<NodeId>>, rows: seq<nat>, total: int)
    requires Core(s) && Distinct(rows) && AllPayable(s, nodes, rows)
    ensures InTable(rows, |s.holds|)
    ensures |Reserve(OpenBatch(s), |s.batches|, rows).batches| == |s.batches| + 1
    ensures Core(WithTotal(Reserve(OpenBatch(s), |s.batches|, rows), |s.batches|, total))
  {
    PayablePrefix(s, nodes, rows, |rows|);
    OpenKeepsCore(s);
    OpenKeepsPayable(s, nodes, rows);
    ReserveKeepsCore(OpenBatch(s), |s.batches|, nodes, rows);
    TotalKeepsCore(Reserve(OpenBatch(s), |s.batches|, rows), |s.batches|, total);
  }

  // ---------------------------------------------------------------- steps that rewrite item rows

  /** Rewriting the status and transaction of items leaves all item sums alone. */
  ghost predicate SameItems(items: seq<Item>, items': seq<Item>) {
    && |items'| == |items|
    && forall i | 0 <= i < |items| ::
         items'[i].batch == items[i].batch && items'[i].node == items[i].node
         && items'[i].amount == items[i].amount && items'[i].hold == items[i].hold
  }

  lemma SameItemSums(items: seq<Item>, items': seq<Item>)
    requires SameItems(items, items')
    ensures forall b: nat :: Sum(items', ItemIn(b)) == Sum(items, ItemIn(b))
    ensures forall b: nat, n: NodeId :: Sum(items', ItemInFor(b, n)) == Sum(items, ItemInFor(b, n))
  {
    forall b: nat ensures Sum(items', ItemIn(b)) == Sum(items, ItemIn(b)) {
      SumSame(items, items', ItemIn(b));
    }
    forall b: nat, n: NodeId ensures Sum(items', ItemInFor(b, n)) == Sum(items, ItemInFor(b, n)) {
      SumSame(items, items', ItemInFor(b, n));
    }
  }

  lemma SamePays(s: State, s': State, t: nat, b: nat)
    requires PaysBatch(s, t, b) && s.txns <= s'.txns && SameItems(s.items, s'.items)
    ensures PaysBatch(s', t, b)
  {
    SameItemSums(s.items, s'.items);
    assert s'.txns[t] == s.txns[t];
  }

  lemma ItemStatusKeepsBatches(s: State, s': State, b: nat)
    requires BatchesOk(s) && SameItems(s.items, s'.items)
    requires b < |s.batches| && |s'.batches| == |s.batches|
    requires forall c: nat | c < |s.batches| && c != b :: s'.batches[c] == s.batches[c]
    requires s'.batches[b].total == s.batches[b].total
    requires s'.batches[b].status == PaidOut ==> Fits(Sum(s.items, ItemIn(b)))
    ensures BatchesOk(s')
  {
    SameItemSums(s.items, s'.items);
    forall c: nat | c < |s'.batches| ensures BatchOk(s', c) {
      assert BatchOk(s, c);
      var i :| 0 <= i < |s.items| && s.items[i].batch == c;
      assert s'.items[i].batch == c;
    }
  }

  lemma ExportRowsOk(s: State, b: nat)
    requires RowsOk(s) && b < |s.batches| && s.batches[b].status == Draft
    ensures RowsOk(Export(s, b).value)
  {
    var s' := Export(s, b).value;
    forall h | 0 <= h < |s'.holds| ensures HoldOk(s', s'.holds[h]) {
      assert HoldOk(s, s.holds[h]);
    }
    forall i | 0 <= i < |s'.items| ensures ItemOk(s', s'.items[i]) {
      assert ItemOk(s, s.items[i]);
    }
  }

  lemma ExportSums(s: State, b: nat)
    requires Reconciled(s) && LiveBatchesAgree(s) && PaidItemsPosted(s) && b < |s.batches|
             && s.batches[b].status == Draft
    ensures Reconciled(Export(s, b).value) && LiveBatchesAgree(Export(s, b).value)
            && PaidItemsPosted(Export(s, b).value)
  {
    var s' := Export(s, b).value;
    SameItemSums(s.items, s'.items);
    forall n: NodeId ensures HostReconciled(s', n) {
      assert HostReconciled(s, n);
    }
    forall c: nat | c < |s'.batches| && s'.batches[c].status != Void ensures BatchAgrees(s', c) {
      assert BatchAgrees(s, c);
    }
    forall i | 0 <= i < |s'.items| && s'.items[i].status == ItemPaid
      ensures s'.items[i].txn.Some? && PaysBatch(s', s'.items[i].txn.value, s'.items[i].batch)
    {
      SamePays(s, s', s.items[i].txn.value, s.items[i].batch);
    }
  }

  lemma ExportKeepsInv(s: State, b: nat)
    requires Inv(s)
    ensures Export(s, b).Ok? ==> Inv(Export(s, b).value)
  {
    if b < |s.batches| && s.batches[b].status == Draft {
      var s' := Export(s, b).value;
      ExportRowsOk(s, b);
      ExportSums(s, b);
      HistoryKept(s, s');
      ItemStatusKeepsBatches(s, s', b);
    }
  }

  // ---------------------------------------------------------------- confirming a batch

  ghost function ExportedIn(b: nat): Item -> int {
    (i: Item) => if i.batch == b && i.status == ItemExported then i.amount else 0
  }

  /** The payout's debits take from each host its exported items, and touch nothing else. */
  lemma {:induction false} DebitSums(items: seq<Item>, b: nat, a: Account)
    ensures Sum(PayoutDebits(items, b), AmountOf()) == Sum(items, ExportedIn(b))
    ensures a.HostAvailable? ==> Sum(PayoutDebits(items, b), AmountOn(a)) == Sum(items, ExportedFor(b, a.node))
    ensures !a.HostAvailable? ==> Sum(PayoutDebits(items, b), AmountOn(a)) == 0
  {
    if items != [] {
      var n := |items| - 1;
      DebitSums(items[..n], b, a);
      var last := items[n];
      if last.batch == b && last.status == ItemExported {
        var e := Entry(HostAvailable(last.node), last.amount);
        SumAppend(PayoutDebits(items[..n], b), e, AmountOf());
        SumAppend(PayoutDebits(items[..n], b), e, AmountOn(a));
      } else {
        assert PayoutDebits(items, b) == PayoutDebits(items[..n], b);
      }
    }
  }

  /** In an exported batch every item is exported, so the debits are the whole batch. */
  lemma ExportedIsAll(s: State, b: nat)
    requires RowsOk(s) && b < |s.batches| && s.batches[b].status == Exported
    ensures Sum(s.items, ExportedIn(b)) == Sum(s.items, ItemIn(b))
    ensures forall n: NodeId :: Sum(s.items, ExportedFor(b, n)) == Sum(s.items, ItemInFor(b, n))
  {
    assert forall i | 0 <= i < |s.items| :: ItemOk(s, s.items[i]);
    SumEqual(s.items, ExportedIn(b), ItemIn(b));
    forall n: NodeId ensures Sum(s.items, ExportedFor(b, n)) == Sum(s.items, ItemInFor(b, n)) {
      SumEqual(s.items, ExportedFor(b, n), ItemInFor(b, n));
    }
  }

  /** A balanced payout has not overflowed: the cash entry is exactly minus the batch's worth. */
  lemma BalancedPayoutIsExact(s: State, b: nat)
    requires RowsOk(s) && b < |s.batches| && s.batches[b].status == Exported
    requires PayoutTotal(s, b) > 0 && Balanced(PayoutEntries(s, b))
    ensures PayoutTotal(s, b) == Sum(s.items, ItemIn(b)) && Fits(Sum(s.items, ItemIn(b)))
  {
    ExportedIsAll(s, b);
    DebitSums(s.items, b, PayoutCash);
    SumAppend(PayoutDebits(s.items, b), Entry(PayoutCash, Wrap(-PayoutTotal(s, b))), AmountOf());
  }

  lemma PayoutEffects(s: State, b: nat, t: Txn, n: NodeId)
    requires t.entries == PayoutEntries(s, b)
    ensures EffectOn(HostPending(n))(t) == 0
    ensures EffectOn(HostAvailable(n))(t) == Sum(s.items, ExportedFor(b, n))
    ensures EffectOn(PayoutCash)(t) == Wrap(-PayoutTotal(s, b))
  {
    var debits := PayoutDebits(s.items, b);
    var cash := Entry(PayoutCash, Wrap(-PayoutTotal(s, b)));
    DebitSums(s.items, b, HostPending(n));
    DebitSums(s.items, b, HostAvailable(n));
    DebitSums(s.items, b, PayoutCash);
    SumAppend(debits, cash, AmountOn(HostPending(n)));
    SumAppend(debits, cash, AmountOn(HostAvailable(n)));
    SumAppend(debits, cash, AmountOn(PayoutCash));
  }

  lemma PayoutPays(s: State, b: nat, now: Time)
    requires RowsOk(s) && b < |s.batches| && s.batches[b].status == Exported
    requires PayoutTotal(s, b) > 0 && Balanced(PayoutEntries(s, b))
    ensures PaysBatch(Settled(s, b, now), |s.txns|, b)
  {
    var s' := Settled(s, b, now);
    var t := s'.txns[|s.txns|];
    BalancedPayoutIsExact(s, b);
    ExportedIsAll(s, b);
    SameItemSums(s.items, s'.items);
    DebitAmountsFit(s, s.items, b);
    forall n: NodeId
      ensures EffectOn(HostPending(n))(t) == 0 && EffectOn(HostAvailable(n))(t) == Sum(s'.items, ItemInFor(b, n))
    {
      PayoutEffects(s, b, t, n);
    }
    PayoutEffects(s, b, t, 0);
  }

  lemma {:induction false} DebitAmountsFit(s: State, items: seq<Item>, b: nat)
    requires RowsOk(s)
    requires forall i | 0 <= i < |items| :: ItemOk(s, items[i])
    ensures forall k | 0 <= k < |PayoutDebits(items, b)| :: Fits(-PayoutDebits(items, b)[k].amount)
  {
    if items != [] {
      var n := |items| - 1;
      DebitAmountsFit(s, items[..n], b);
      assert HoldOk(s, s.holds[items[n].hold]);
    }
  }

  /** Settling moves a batch's holds from owed to paid, host by host. */
  lemma SettledHoldSums(s: State, b: nat, holds': seq<Hold>)
    requires RowsOk(s) && b < |s.batches| && s.batches[b].status == Exported
    requires holds' == MapHolds(s.holds, SettleHold(b))
    ensures forall n: NodeId :: Sum(holds', PendingOf(n)) == Sum(s.holds, PendingOf(n))
    ensures forall n: NodeId :: Sum(holds', OwedTo(n)) == Sum(s.holds, OwedTo(n)) - Sum(s.holds, HeldInFor(b, n))
    ensures Sum(holds', PaidAmount()) == Sum(s.holds, PaidAmount()) + Sum(s.holds, HeldIn(b))
    ensures forall c: nat :: Sum(holds', HeldIn(c)) == Sum(s.holds, HeldIn(c))
    ensures forall c: nat, n: NodeId :: Sum(holds', HeldInFor(c, n)) == Sum(s.holds, HeldInFor(c, n))
  {
    assert forall h | 0 <= h < |s.holds| :: HoldOk(s, s.holds[h]);
    HeldUnchanged(s.holds, holds');
    SumShift(s.holds, holds', PaidAmount(), HeldIn(b));
    forall n: NodeId ensures Sum(holds', PendingOf(n)) == Sum(s.holds, PendingOf(n)) {
      SumSame(s.holds, holds', PendingOf(n));
    }
    forall n: NodeId ensures Sum(holds', OwedTo(n)) == Sum(s.holds, OwedTo(n)) - Sum(s.holds, HeldInFor(b, n)) {
      SumShift(holds', s.holds, OwedTo(n), HeldInFor(b, n));
    }
  }

  lemma HeldUnchanged(holds: seq<Hold>, holds': seq<Hold>)
    requires |holds'| == |holds|
    requires forall h | 0 <= h < |holds| ::
               holds'[h].batch == holds[h].batch && holds'[h].node == holds[h].node
                 && holds'[h].amount == holds[h].amount
    ensures forall c: nat :: Sum(holds', HeldIn(c)) == Sum(holds, HeldIn(c))
    ensures forall c: nat, n: NodeId :: Sum(holds', HeldInFor(c, n)) == Sum(holds, HeldInFor(c, n))
  {
    forall c: nat ensures Sum(holds', HeldIn(c)) == Sum(holds, HeldIn(c)) {
      SumSame(holds, holds', HeldIn(c));
    }
    forall c: nat, n: NodeId ensures Sum(holds', HeldInFor(c, n)) == Sum(holds, HeldInFor(c, n)) {
      SumSame(holds, holds', HeldInFor(c, n));
    }
  }

  lemma SettledReconciles(s: State, b: nat, now: Time)
    requires RowsOk(s) && Reconciled(s) && LiveBatchesAgree(s) && b < |s.batches| && s.batches[b].status == Exported
    requires PayoutTotal(s, b) > 0 && Balanced(PayoutEntries(s, b))
    ensures Reconciled(Settled(s, b, now)) && LiveBatchesAgree(Settled(s, b, now))
  {
    var s' := Settled(s, b, now);
    TxnAppended(s, s'.txns[|s.txns|], s');
    PayoutPays(s, b, now);
    SameItemSums(s.items, s'.items);
    SettledHoldSums(s, b, s'.holds);
    assert BatchAgrees(s, b);
    forall n: NodeId ensures HostReconciled(s', n) {
      assert HostReconciled(s, n);
    }
    forall c: nat | c < |s'.batches| && s'.batches[c].status != Void ensures BatchAgrees(s', c) {
      assert BatchAgrees(s, c);
    }
  }

  lemma SettledRows(s: State, b: nat, now: Time)
    requires RowsOk(s) && b < |s.batches| && s.batches[b].status == Exported
    ensures RowsOk(Settled(s, b, now))
  {
    var s' := Settled(s, b, now);
    forall h | 0 <= h < |s'.holds| ensures HoldOk(s', s'.holds[h]) {
      assert HoldOk(s, s.holds[h]);
    }
    forall i | 0 <= i < |s'.items| ensures ItemOk(s', s'.items[i]) {
      assert ItemOk(s, s.items[i]);
    }
  }

  lemma SettledPaid(s: State, b: nat, now: Time)
    requires ItemsOk(s) && PaidItemsPosted(s) && b < |s.batches| && s.batches[b].status == Exported
    requires PaysBatch(Settled(s, b, now), |s.txns|, b)
    ensures PaidItemsPosted(Settled(s, b, now))
  {
    var s' := Settled(s, b, now);
    forall i | 0 <= i < |s'.items| && s'.items[i].status == ItemPaid
      ensures s'.items[i].txn.Some? && PaysBatch(s', s'.items[i].txn.value, s'.items[i].batch)
    {
      assert ItemOk(s, s.items[i]);
      if s.items[i].status == ItemPaid {
        SamePays(s, s', s.items[i].txn.value, s.items[i].batch);
      }
    }
  }

  lemma SettledHistory(s: State, b: nat, now: Time)
    requires History(s) && HoldsOk(s) && b < |s.batches| && Balanced(PayoutEntries(s, b))
    ensures History(Settled(s, b, now))
  {
    var s' := Settled(s, b, now);
    HistoryAppended(s, s'.txns[|s.txns|], s');
  }

  lemma ConfirmKeepsInv(s: State, b: nat, rows: seq<Row>, now: Time)
    requires Inv(s)
    ensures Confirm(s, b, rows, now).Ok? ==> Inv(Confirm(s, b, rows, now).value)
  {
    if Confirm(s, b, rows, now).Ok? {
      SettledKeepsInv(s, b, now, Settled(s, b, now));
    }
  }

  lemma SettledKeepsInv(s: State, b: nat, now: Time, s': State)
    requires Inv(s) && b < |s.batches| && s.batches[b].status == Exported && s' == Settled(s, b, now)
    requires PayoutTotal(s, b) > 0 && Balanced(PayoutEntries(s, b))
    ensures Inv(s')
  {
    PayoutPays(s, b, now);
    SettledReconciles(s, b, now);
    SettledRows(s, b, now);
    SettledPaid(s, b, now);
    SettledHistory(s, b, now);
    SettledBatches(s, b, now);
  }

  lemma SettledBatches(s: State, b: nat, now: Time)
    requires RowsOk(s) && BatchesOk(s) && b < |s.batches| && s.batches[b].status == Exported
    requires PayoutTotal(s, b) > 0 && Balanced(PayoutEntries(s, b))
    ensures BatchesOk(Settled(s, b, now))
  {
    BalancedPayoutIsExact(s, b);
    ItemStatusKeepsBatches(s, Settled(s, b, now), b);
  }

  // ---------------------------------------------------------------- voiding a batch

  lemma {:induction false} NegatedSum(entries: seq<Entry>, f: Entry -> int)
    requires forall k | 0 <= k < |entries| :: f(Negated(entries)[k]) == -f(entries[k])
    ensures Sum(Negated(entries), f) == -Sum(entries, f)
  {
    if entries != [] {
      var n := |entries| - 1;
      assert Negated(entries)[..n] == Negated(entries[..n]);
      NegatedSum(entries[..n], f);
    }
  }

  /** A reversal undoes its original on every account, and balances when the original did. */
  lemma ReversalNegates(t: Txn, r: Txn)
    requires r.entries == Negated(t.entries)
    requires forall k | 0 <= k < |t.entries| :: Fits(-t.entries[k].amount)
    ensures forall a: Account :: EffectOn(a)(r) == -EffectOn(a)(t)
    ensures Balanced(t.entries) ==> Balanced(r.entries)
  {
    forall a: Account ensures EffectOn(a)(r) == -EffectOn(a)(t) {
      NegatedSum(t.entries, AmountOn(a));
    }
    NegatedSum(t.entries, AmountOf());
  }

  lemma FreedHoldSums(s: State, b: nat, holds': seq<Hold>)
    requires RowsOk(s) && b < |s.batches| && holds' == MapHolds(s.holds, FreeHold(b))
    ensures forall n: NodeId :: Sum(holds', PendingOf(n)) == Sum(s.holds, PendingOf(n))
    ensures forall n: NodeId :: Sum(holds', OwedTo(n)) == Sum(s.holds, OwedTo(n))
    ensures Sum(holds', PaidAmount()) == Sum(s.holds, PaidAmount())
    ensures forall c: nat | c != b :: Sum(holds', HeldIn(c)) == Sum(s.holds, HeldIn(c))
    ensures forall c: nat, n: NodeId | c != b :: Sum(holds', HeldInFor(c, n)) == Sum(s.holds, HeldInFor(c, n))
  {
    SumSame(s.holds, holds', PaidAmount());
    forall n: NodeId ensures Sum(holds', PendingOf(n)) == Sum(s.holds, PendingOf(n)) {
      SumSame(s.holds, holds', PendingOf(n));
    }
    forall n: NodeId ensures Sum(holds', OwedTo(n)) == Sum(s.holds, OwedTo(n)) {
      SumSame(s.holds, holds', OwedTo(n));
    }
    forall c: nat | c != b ensures Sum(holds', HeldIn(c)) == Sum(s.holds, HeldIn(c)) {
      SumSame(s.holds, holds', HeldIn(c));
    }
    forall c: nat, n: NodeId | c != b ensures Sum(holds', HeldInFor(c, n)) == Sum(s.holds, HeldInFor(c, n)) {
      SumSame(s.holds, holds', HeldInFor(c, n));
    }
  }

  lemma ReversedHoldSums(s: State, b: nat, holds': seq<Hold>)
    requires RowsOk(s) && b < |s.batches| && s.batches[b].status == PaidOut
    requires holds' == MapHolds(s.holds, ReverseHold(b))
    ensures forall n: NodeId :: Sum(holds', PendingOf(n)) == Sum(s.holds, PendingOf(n))
    ensures forall n: NodeId :: Sum(holds', OwedTo(n)) == Sum(s.holds, OwedTo(n)) + Sum(s.holds, HeldInFor(b, n))
    ensures Sum(holds', PaidAmount()) == Sum(s.holds, PaidAmount()) - Sum(s.holds, HeldIn(b))
    ensures forall c: nat :: Sum(holds', HeldIn(c)) == Sum(s.holds, HeldIn(c))
    ensures forall c: nat, n: NodeId :: Sum(holds', HeldInFor(c, n)) == Sum(s.holds, HeldInFor(c, n))
  {
    assert forall h | 0 <= h < |s.holds| :: HoldOk(s, s.holds[h]);
    HeldUnchanged(s.holds, holds');
    SumShift(holds', s.holds, PaidAmount(), HeldIn(b));
    forall n: NodeId ensures Sum(holds', PendingOf(n)) == Sum(s.holds, PendingOf(n)) {
      SumSame(s.holds, holds', PendingOf(n));
    }
    forall n: NodeId ensures Sum(holds', OwedTo(n)) == Sum(s.holds, OwedTo(n)) + Sum(s.holds, HeldInFor(b, n)) {
      SumShift(s.holds, holds', OwedTo(n), HeldInFor(b, n));
    }
  }

  /** The tables after a void, whichever way the holds went. */
  ghost predicate Voided(s: State, b: nat, s': State) {
    && b < |s.batches| && s.batches[b].status != Void
    && s.txns <= s'.txns
    && s'.items == MapItems(s.items, VoidItem(b))
    && s'.batches == s.batches[b := s.batches[b].(status := Void)]
    && s'.holds
       == if s.batches[b].status == PaidOut then MapHolds(s.holds, ReverseHold(b)) else MapHolds(s.holds, FreeHold(b))
  }

  lemma VoidRows(s: State, b: nat, s': State)
    requires RowsOk(s) && Voided(s, b, s')
    ensures RowsOk(s')
  {
    VoidHolds(s, b, s');
    forall i | 0 <= i < |s'.items| ensures ItemOk(s', s'.items[i]) {
      assert ItemOk(s, s.items[i]);
    }
  }

  lemma VoidHolds(s: State, b: nat, s': State)
    requires HoldsOk(s) && Voided(s, b, s')
    ensures HoldsOk(s') && SameHistory(s.holds, s'.holds)
  {
    forall h | 0 <= h < |s'.holds|
      ensures HoldOk(s', s'.holds[h]) && (s'.holds[h].state == Pending <==> s.holds[h].state == Pending)
    {
      assert HoldOk(s, s.holds[h]);
    }
  }

  lemma VoidPaidItems(s: State, b: nat, s': State)
    requires PaidItemsPosted(s) && Voided(s, b, s')
    ensures PaidItemsPosted(s')
  {
    forall i | 0 <= i < |s'.items| && s'.items[i].status == ItemPaid
      ensures s'.items[i].txn.Some? && PaysBatch(s', s'.items[i].txn.value, s'.items[i].batch)
    {
      SamePays(s, s', s.items[i].txn.value, s.items[i].batch);
    }
  }

  lemma VoidUnpaidReconciles(s: State, b: nat, s': State)
    requires RowsOk(s) && Reconciled(s) && LiveBatchesAgree(s) && b < |s.batches|
    requires s'.txns == s.txns
    requires s'.items == MapItems(s.items, VoidItem(b))
    requires s'.batches == s.batches[b := s.batches[b].(status := Void)]
    requires s'.holds == MapHolds(s.holds, FreeHold(b))
    ensures Reconciled(s') && LiveBatchesAgree(s')
  {
    SameItemSums(s.items, s'.items);
    FreedHoldSums(s, b, s'.holds);
    forall n: NodeId ensures HostReconciled(s', n) {
      assert HostReconciled(s, n);
    }
    forall c: nat | c < |s'.batches| && s'.batches[c].status != Void ensures BatchAgrees(s', c) {
      assert BatchAgrees(s, c);
    }
  }

  lemma VoidUnpaidKeepsInv(s: State, b: nat, now: Time)
    requires Inv(s) && b < |s.batches| && s.batches[b].status != Void && s.batches[b].status != PaidOut
    ensures VoidBatch(s, b, now).Ok? && Inv(VoidBatch(s, b, now).value)
  {
    var s' := VoidBatch(s, b, now).value;
    VoidUnpaidReconciles(s, b, s');
    VoidRows(s, b, s');
    VoidHolds(s, b, s');
    VoidPaidItems(s, b, s');
    HistoryKept(s, s');
    ItemStatusKeepsBatches(s, s', b);
  }

  /** The payout transaction found on a paid batch's items is one that paid the batch. */
  lemma PaidBatchHasTxn(s: State, b: nat)
    requires Inv(s) && b < |s.batches| && s.batches[b].status == PaidOut
    ensures PayoutTxn(s.items, b).Some? && PaysBatch(s, PayoutTxn(s.items, b).value, b)
  {
    assert BatchOk(s, b);
    var i :| 0 <= i < |s.items| && s.items[i].batch == b;
    assert ItemOk(s, s.items[i]);
    var t := PayoutTxn(s.items, b);
    assert s.items[i].txn.Some?;
    var k :| 0 <= k < |s.items| && s.items[k].batch == b && s.items[k].txn == t;
    assert ItemOk(s, s.items[k]);
  }

  lemma VoidPaidReconciles(s: State, b: nat, s': State, t: nat)
    requires Inv(s) && b < |s.batches| && s.batches[b].status == PaidOut && PaysBatch(s, t, b)
    requires |s'.txns| == |s.txns| + 1 && s'.txns[..|s.txns|] == s.txns
    requires s'.txns[|s.txns|].entries == Negated(s.txns[t].entries)
    requires s'.items == MapItems(s.items, VoidItem(b))
    requires s'.batches == s.batches[b := s.batches[b].(status := Void)]
    requires s'.holds == MapHolds(s.holds, ReverseHold(b))
    ensures Reconciled(s') && LiveBatchesAgree(s')
  {
    var r := s'.txns[|s.txns|];
    assert s'.txns == s.txns + [r];
    TxnAppended(s, r, s');
    ReversalNegates(s.txns[t], r);
    SameItemSums(s.items, s'.items);
    ReversedHoldSums(s, b, s'.holds);
    assert BatchAgrees(s, b);
    forall n: NodeId ensures HostReconciled(s', n) {
      assert HostReconciled(s, n);
    }
    forall c: nat | c < |s'.batches| && s'.batches[c].status != Void ensures BatchAgrees(s', c) {
      assert BatchAgrees(s, c);
    }
  }

  lemma VoidPaidKeepsInv(s: State, b: nat, now: Time)
    requires Inv(s) && b < |s.batches| && s.batches[b].status == PaidOut
    ensures VoidBatch(s, b, now).Ok? && Inv(VoidBatch(s, b, now).value)
  {
    PaidBatchHasTxn(s, b);
    var t := PayoutTxn(s.items, b).value;
    var r := Txn(Reversal, s.txns[t].ref, Some(t), Negated(s.txns[t].entries), now);
    ReversalNegates(s.txns[t], r);
    VoidPaidReconciles(s, b, VoidBatch(s, b, now).value, t);
    VoidPaidTables(s, b, VoidBatch(s, b, now).value, r);
  }

  lemma VoidPaidTables(s: State, b: nat, s': State, r: Txn)
    requires Inv(s) && Voided(s, b, s')
    requires s'.txns == s.txns + [r] && Balanced(r.entries) && r.kind == Reversal
    ensures RowsOk(s') && PaidItemsPosted(s') && History(s') && BatchesOk(s')
  {
    VoidRows(s, b, s');
    VoidHolds(s, b, s');
    VoidPaidItems(s, b, s');
    HistoryAppended(s, r, s');
    ItemStatusKeepsBatches(s, s', b);
  }

  lemma VoidKeepsInv(s: State, b: nat, now: Time)
    requires Inv(s) && b < |s.batches|
    ensures VoidBatch(s, b, now).Ok? && Inv(VoidBatch(s, b, now).value)
  {
    if s.batches[b].status == PaidOut {
      VoidPaidKeepsInv(s, b, now);
    } else if s.batches[b].status != Void {
      VoidUnpaidKeepsInv(s, b, now);
    }
  }
}
