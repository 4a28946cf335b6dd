/**
 What each payout operation does to the rows: when a batch can be created and what it reserves, that
 exporting exports, that the exported file pays every hold of the batch, and what voiding takes back.
 */
module LedgerBatches {
  import opened Options
  import opened Int64
  import opened Sums
  import opened Ledger
  import opened LedgerInvariant
  import opened LedgerPayouts
  import opened LedgerRuns

  // ---------------------------------------------------------------- creating

  /** What a hold adds to a batch for these hosts: its amount if it can be paid out. */
  ghost function Payout(nodes: Option<set<NodeId>>): Hold -> int {
    (h: Hold) =>
      if h.state == Available && h.amount > 0 && (nodes.Some? ==> h.node in nodes.value) then h.amount else 0
  }

  ghost predicate AnyPayable(s: State, nodes: Option<set<NodeId>>) {
    exists h: nat :: Payable(s, nodes, h)
  }

  /** Item by item, what reserving appends. */
  lemma {:induction false} ReservedItems(s: State, b: nat, rows: seq<nat>, k: nat)
    requires InTable(rows, |s.holds|) && Distinct(rows) && k < |rows|
    ensures |Reserve(s, b, rows).items| == |s.items| + |rows|
    ensures Reserve(s, b, rows).items[|s.items| + k]
            == Item(b, s.holds[rows[k]].node, rows[k], s.holds[rows[k]].amount, ItemPending, None)
  {
    var n := |rows| - 1;
    ReservedRows(s, b, rows, rows[k]);
    ReservedRows(s, b, rows[..n], rows[n]);
    if k < n {
      ReservedItems(s, b, rows[..n], k);
    }
  }

  /** The new items are worth what the payable holds are. */
  lemma CreatedWorth(s: State, nodes: Option<set<NodeId>>, rows: seq<nat>)
    requires Inv(s) && PayableRows(s, nodes, rows) && rows != []
    ensures InTable(rows, |s.holds|)
    ensures Sum(Reserve(OpenBatch(s), |s.batches|, rows).items[|s.items|..], ItemIn(|s.batches|))
            == Sum(s.holds, Payout(nodes))
  {
    PayablePrefix(s, nodes, rows, |rows|);
    var b := |s.batches|;
    var reserved := Reserve(OpenBatch(s), b, rows);
    ReservedRows(OpenBatch(s), b, rows, rows[0]);
    ReservedAgree(s, nodes, rows, reserved);
    NothingIn(s, b);
    AppendedSum(s.items, reserved.items, ItemIn(b));
    ReservedHeld(s, nodes, rows, reserved);
  }

  lemma AppendedSum(items: seq<Item>, all: seq<Item>, f: Item -> int)
    requires items <= all
    ensures Sum(all[|items|..], f) == Sum(all, f) - Sum(items, f)
  {
    SumConcat(items, all[|items|..], f);
    assert items + all[|items|..] == all;
  }

  lemma ReservedAgree(s: State, nodes: Option<set<NodeId>>, rows: seq<nat>, reserved: State)
    requires Inv(s) && PayableRows(s, nodes, rows) && InTable(rows, |s.holds|)
    requires reserved == Reserve(OpenBatch(s), |s.batches|, rows) && |reserved.batches| == |s.batches| + 1
    ensures Sum(reserved.holds, HeldIn(|s.batches|)) == Sum(reserved.items, ItemIn(|s.batches|))
  {
    CreatedCore(s, nodes, rows, 0);
    var s' := WithTotal(reserved, |s.batches|, 0);
    if rows != [] {
      ReservedRows(OpenBatch(s), |s.batches|, rows, rows[0]);
    }
    assert s'.batches[|s.batches|].status == Draft;
    assert BatchAgrees(s', |s.batches|);
  }

  lemma ReservedHeld(s: State, nodes: Option<set<NodeId>>, rows: seq<nat>, reserved: State)
    requires Inv(s) && PayableRows(s, nodes, rows) && InTable(rows, |s.holds|)
    requires reserved == Reserve(OpenBatch(s), |s.batches|, rows)
    ensures Sum(reserved.holds, HeldIn(|s.batches|)) == Sum(s.holds, Payout(nodes))
  {
    forall h | 0 <= h < |s.holds| ensures HeldIn(|s.batches|)(reserved.holds[h]) == Payout(nodes)(s.holds[h]) {
      ReservedHold(s, nodes, rows, h);
    }
    SumPointwise(reserved.holds, s.holds, HeldIn(|s.batches|), Payout(nodes));
  }

  lemma {:induction false} SumPointwise<S, T>(s: seq<S>, t: seq<T>, f: S -> int, g: T -> int)
    requires |s| == |t| && forall i | 0 <= i < |s| :: f(s[i]) == g(t[i])
    ensures Sum(s, f) == Sum(t, g)
  {
    if s != [] {
      SumPointwise(s[..|s| - 1], t[..|t| - 1], f, g);
    }
  }

  lemma ReservedHold(s: State, nodes: Option<set<NodeId>>, rows: seq<nat>, h: nat)
    requires Inv(s) && PayableRows(s, nodes, rows) && InTable(rows, |s.holds|) && h < |s.holds|
    ensures var h' := Reserve(OpenBatch(s), |s.batches|, rows).holds[h];
            && h' == (if Payable(s, nodes, h) then s.holds[h].(state := PayoutPending, batch := Some(|s.batches|))
                      else s.holds[h])
            && HeldIn(|s.batches|)(h') == Payout(nodes)(s.holds[h])
  {
    ReservedRows(OpenBatch(s), |s.batches|, rows, h);
    assert HoldOk(s, s.holds[h]);
    if h in rows {
      var i :| 0 <= i < |rows| && rows[i] == h;
      assert Payable(s, nodes, rows[i]);
    }
  }

  /** A batch is created exactly when something is payable and its worth, in an int64, is not negative. */
  lemma CreateSucceedsIff(s: State, nodes: Option<set<NodeId>>, rows: seq<nat>)
    requires Inv(s) && PayableRows(s, nodes, rows)
    ensures InTable(rows, |s.holds|)
    ensures CreateBatch(s, rows).Ok? <==> AnyPayable(s, nodes) && Wrap(Sum(s.holds, Payout(nodes))) >= 0
  {
    PayablePrefix(s, nodes, rows, |rows|);
    if rows != [] {
      assert Payable(s, nodes, rows[0]);
      CreatedWorth(s, nodes, rows);
    }
  }

  /**
   Creating a batch adds one draft worth the payable holds, with one pending item for each of them;
   exactly these are reserved, and nothing is posted.
   */
  lemma CreateReserves(s: State, nodes: Option<set<NodeId>>, rows: seq<nat>, h: nat, k: nat)
    requires Inv(s) && PayableRows(s, nodes, rows) && InTable(rows, |s.holds|) && CreateBatch(s, rows).Ok?
    requires h < |s.holds| && k < |rows|
    ensures var s', b := CreateBatch(s, rows).value, |s.batches|;
            && s'.txns == s.txns && s'.batches == s.batches + [Batch(Draft, Wrap(Sum(s.holds, Payout(nodes))))]
            && |s'.holds| == |s.holds|
            && s'.holds[h] == (if Payable(s, nodes, h) then s.holds[h].(state := PayoutPending, batch := Some(b))
                               else s.holds[h])
            && |s'.items| == |s.items| + |rows| && s.items <= s'.items
            && s'.items[|s.items| + k]
               == Item(b, s.holds[rows[k]].node, rows[k], s.holds[rows[k]].amount, ItemPending, None)
  {
    CreatedWorth(s, nodes, rows);
    ReservedHold(s, nodes, rows, h);
    ReservedRows(OpenBatch(s), |s.batches|, rows, h);
    ReservedItems(OpenBatch(s), |s.batches|, rows, k);
  }

  // ---------------------------------------------------------------- exporting

  /**
   Exporting a draft turns the batch and each of its items into exported ones and leaves every other
   row alone; exporting any other batch changes nothing.
   */
  lemma ExportExports(s: State, b: nat)
    requires Inv(s)
    ensures Export(s, b).Ok? <==> b < |s.batches|
    ensures b < |s.batches| && s.batches[b].status != Draft ==> Export(s, b).value == s
    ensures b < |s.batches| && s.batches[b].status == Draft ==>
              var s' := Export(s, b).value;
              && s'.txns == s.txns && s'.holds == s.holds
              && |s'.batches| == |s.batches| && |s'.items| == |s.items|
              && s'.batches[b].status == Exported && s'.batches[b].total == s.batches[b].total
              && (forall c | 0 <= c < |s.batches| && c != b :: s'.batches[c] == s.batches[c])
              && (forall i | 0 <= i < |s.items| && s.items[i].batch == b ::
                    s.items[i].status == ItemPending && s'.items[i] == s.items[i].(status := ItemExported))
              && (forall i | 0 <= i < |s.items| && s.items[i].batch != b :: s'.items[i] == s.items[i])
  {
    if b < |s.batches| && s.batches[b].status == Draft {
      forall i | 0 <= i < |s.items| && s.items[i].batch == b ensures s.items[i].status == ItemPending {
        assert ItemOk(s, s.items[i]);
      }
    }
  }

  predicate Listed(i: Item, b: nat) {
    i.batch == b && i.status != ItemVoid
  }

  ghost function ListedOnce(b: nat): Item -> int {
    (i: Item) => if Listed(i, b) then 1 else 0
  }

  /** The file has one row for each item of the batch that is not void, with its host and amount, in their order. */
  lemma {:induction false} FileListsItems(items: seq<Item>, b: nat, i: nat)
    requires i < |items|
    ensures |ExportRows(items, b)| == Sum(items, ListedOnce(b))
    ensures Listed(items[i], b) ==>
              var at := Sum(items[..i], ListedOnce(b));
              && 0 <= at < |ExportRows(items, b)|
              && ExportRows(items, b)[at] == Row(items[i].node, Some(items[i].amount))
  {
    var n := |items| - 1;
    RowCount(items[..n], b);
    if i < n {
      FileListsItems(items[..n], b, i);
      assert items[..n][..i] == items[..i];
    }
  }

  lemma {:induction false} RowCount(items: seq<Item>, b: nat)
    ensures |ExportRows(items, b)| == Sum(items, ListedOnce(b))
  {
    if items != [] {
      RowCount(items[..|items| - 1], b);
    }
  }

  // ---------------------------------------------------------------- confirming

  /** The payable balance of each host, cash and all other accounts after a payout of batch b. */
  ghost predicate PaidFrom(s: State, s': State, b: nat) {
    && (forall n: NodeId :: Balance(s', HostAvailable(n)) == Balance(s, HostAvailable(n)) + BatchWorthTo(s, b, n))
    && Balance(s', PayoutCash) == Balance(s, PayoutCash) - Sum(s.items, ItemIn(b))
    && (forall a: Account | !a.HostAvailable? && a != PayoutCash :: Balance(s', a) == Balance(s, a))
  }

  /** A confirmation that goes through makes the batch, all its items and all its holds paid, and no other row. */
  lemma ConfirmPays(s: State, b: nat, rows: seq<Row>, now: Time)
    requires Inv(s) && Confirm(s, b, rows, now).Ok?
    ensures b < |s.batches| && s.batches[b].status == Exported
    ensures var s' := Confirm(s, b, rows, now).value;
            && s'.batches == s.batches[b := s.batches[b].(status := PaidOut)]
            && |s'.items| == |s.items| && |s'.holds| == |s.holds|
            && (forall i | 0 <= i < |s.items| ::
                  s'.items[i] == if s.items[i].batch == b then s.items[i].(status := ItemPaid, txn := Some(|s.txns|))
                                 else s.items[i])
            && (forall h | 0 <= h < |s.holds| ::
                  s'.holds[h] == if s.holds[h].batch == Some(b) then s.holds[h].(state := Paid) else s.holds[h])
            && |s'.txns| == |s.txns| + 1 && s.txns <= s'.txns
            && s'.txns[|s.txns|].kind == HostPayout && s'.txns[|s.txns|].ref == ForBatch(b)
            && s'.txns[|s.txns|].at == now
            && PaidFrom(s, s', b)
  {
    var s' := Confirm(s, b, rows, now).value;
    forall i | 0 <= i < |s.items| && s.items[i].batch == b ensures s.items[i].status == ItemExported {
      assert ItemOk(s, s.items[i]);
    }
    forall h | 0 <= h < |s.holds| && s.holds[h].batch == Some(b) ensures s.holds[h].state == PayoutPending {
      assert HoldOk(s, s.holds[h]);
    }
    PayoutMoves(s, b, now, s');
  }

  lemma PayoutMoves(s: State, b: nat, now: Time, s': State)
    requires Inv(s) && b < |s.batches| && s.batches[b].status == Exported && s' == Settled(s, b, now)
    requires PayoutTotal(s, b) > 0 && Balanced(PayoutEntries(s, b))
    ensures PaidFrom(s, s', b)
  {
    var t := s'.txns[|s.txns|];
    assert s'.txns == s.txns + [t];
    TxnAppended(s, t, s');
    ExportedIsAll(s, b);
    BalancedPayoutIsExact(s, b);
    forall n: NodeId ensures EffectOn(HostAvailable(n))(t) == BatchWorthTo(s, b, n) {
      PayoutEffects(s, b, t, n);
    }
    PayoutEffects(s, b, t, 0);
    forall a: Account | !a.HostAvailable? && a != PayoutCash ensures EffectOn(a)(t) == 0 {
      OtherAccounts(s.items, b, a);
      SumAppend(PayoutDebits(s.items, b), Entry(PayoutCash, Wrap(-PayoutTotal(s, b))), AmountOn(a));
    }
  }

  lemma {:induction false} OtherAccounts(items: seq<Item>, b: nat, a: Account)
    requires !a.HostAvailable?
    ensures Sum(PayoutDebits(items, b), AmountOn(a)) == 0
  {
    if items != [] {
      var n := |items| - 1;
      OtherAccounts(items[..n], b, a);
      if items[n].batch == b && items[n].status == ItemExported {
        SumAppend(PayoutDebits(items[..n], b), Entry(HostAvailable(items[n].node), items[n].amount), AmountOn(a));
      } else {
        assert PayoutDebits(items, b) == PayoutDebits(items[..n], b);
      }
    }
  }

  /**
   From a draft to money: the file that exporting a draft returns confirms it if its worth fits an
   int64, and then the batch is paid, every hold in it is paid, and no other hold has moved.
   */
  lemma DraftPaysOut(s: State, b: nat, now: Time)
    requires Inv(s) && b < |s.batches| && s.batches[b].status == Draft && Fits(Sum(s.items, ItemIn(b)))
    ensures Export(s, b).Ok? && Confirm(Export(s, b).value, b, ExportRows(s.items, b), now).Ok?
    ensures PaidOutOf(s, b, Confirm(Export(s, b).value, b, ExportRows(s.items, b), now).value)
  {
    var mid := Export(s, b).value;
    ExportExports(s, b);
    ExportKeepsInv(s, b);
    SameFile(s, mid, b);
    ExportedPaysOut(s, mid, b, ExportRows(s.items, b), now);
  }

  /** The batch and its holds are paid, and so are the hosts. */
  ghost predicate PaidOutOf(s: State, b: nat, s': State) {
    && |s'.batches| == |s.batches| && b < |s.batches| && s'.batches[b].status == PaidOut
    && |s'.holds| == |s.holds|
    && (forall h | 0 <= h < |s.holds| ::
          s'.holds[h] == if s.holds[h].batch == Some(b) then s.holds[h].(state := Paid) else s.holds[h])
    && PaidFrom(s, s', b)
  }

  lemma ExportedPaysOut(s: State, mid: State, b: nat, rows: seq<Row>, now: Time)
    requires Inv(mid) && b < |mid.batches| == |s.batches| && mid.batches[b].status == Exported
    requires rows == ExportRows(mid.items, b) && Fits(Sum(mid.items, ItemIn(b)))
    requires mid.holds == s.holds && mid.txns == s.txns && Sum(mid.items, ItemIn(b)) == Sum(s.items, ItemIn(b))
    requires forall n: NodeId :: BatchWorthTo(mid, b, n) == BatchWorthTo(s, b, n)
    ensures Confirm(mid, b, rows, now).Ok? && PaidOutOf(s, b, Confirm(mid, b, rows, now).value)
  {
    ExportedFileConfirms(mid, b, now);
    ConfirmPays(mid, b, rows, now);
  }

  /** Marking items exported changes neither the file nor what the batch is worth. */
  lemma SameFile(s: State, mid: State, b: nat)
    requires |mid.items| == |s.items|
    requires forall i | 0 <= i < |s.items| :: mid.items[i] == s.items[i].(status := mid.items[i].status)
    requires forall i | 0 <= i < |s.items| :: mid.items[i].status == ItemVoid <==> s.items[i].status == ItemVoid
    ensures ExportRows(mid.items, b) == ExportRows(s.items, b)
    ensures Sum(mid.items, ItemIn(b)) == Sum(s.items, ItemIn(b))
    ensures forall n: NodeId :: BatchWorthTo(mid, b, n) == BatchWorthTo(s, b, n)
  {
    SameRows(s.items, mid.items, b);
    SumSame(s.items, mid.items, ItemIn(b));
    forall n: NodeId ensures BatchWorthTo(mid, b, n) == BatchWorthTo(s, b, n) {
      SumSame(s.items, mid.items, ItemInFor(b, n));
    }
  }

  lemma {:induction false} SameRows(items: seq<Item>, items': seq<Item>, b: nat)
    requires |items'| == |items|
    requires forall i | 0 <= i < |items| :: items'[i] == items[i].(status := items'[i].status)
    requires forall i | 0 <= i < |items| :: items'[i].status == ItemVoid <==> items[i].status == ItemVoid
    ensures ExportRows(items', b) == ExportRows(items, b)
  {
    if items != [] {
      SameRows(items[..|items| - 1], items'[..|items| - 1], b);
    }
  }

  // ---------------------------------------------------------------- voiding

  /** The batch and its items are void; its holds are free or reversed; no other row has changed. */
  ghost predicate VoidsRows(s: State, b: nat, s': State) {
    && b < |s.batches| && s'.batches == s.batches[b := s.batches[b].(status := Void)]
    && |s'.items| == |s.items| && |s'.holds| == |s.holds|
    && (forall i | 0 <= i < |s.items| ::
          s'.items[i] == if s.items[i].batch == b then s.items[i].(status := ItemVoid) else s.items[i])
    && (forall h | 0 <= h < |s.holds| :: HoldAfterVoid(s.batches[b].status == PaidOut, b, s.holds[h], s'.holds[h]))
  }

  predicate HoldAfterVoid(paid: bool, b: nat, h: Hold, h': Hold) {
    h' == if h.batch != Some(b) then h
          else if paid then h.(state := Reversed)
          else h.(state := Available, batch := None)
  }

  lemma VoidedRows(s: State, b: nat, s': State)
    requires Inv(s) && Voided(s, b, s')
    ensures VoidsRows(s, b, s')
  {
    forall h | 0 <= h < |s.holds|
      ensures HoldAfterVoid(s.batches[b].status == PaidOut, b, s.holds[h], s'.holds[h])
    {
      assert HoldOk(s, s.holds[h]);
    }
  }

  lemma VoidGivesVoided(s: State, b: nat, now: Time)
    requires b < |s.batches| && s.batches[b].status != Void && VoidBatch(s, b, now).Ok?
    ensures Voided(s, b, VoidBatch(s, b, now).value)
    ensures s.batches[b].status != PaidOut ==> VoidBatch(s, b, now).value.txns == s.txns
  {
  }

  /**
   Voiding voids the batch and its items. Reserved holds become available again with no batch, paid
   ones reversed, and no other row changes. Only for a paid batch is anything posted.
   */
  lemma VoidVoids(s: State, b: nat, now: Time)
    requires Inv(s)
    ensures VoidBatch(s, b, now).Ok? <==> b < |s.batches|
    ensures b < |s.batches| && s.batches[b].status != Void ==>
              && VoidsRows(s, b, VoidBatch(s, b, now).value)
              && (s.batches[b].status != PaidOut ==> VoidBatch(s, b, now).value.txns == s.txns)
    ensures b < |s.batches| && s.batches[b].status == Void ==> VoidBatch(s, b, now).value == s
  {
    if b < |s.batches| {
      VoidKeepsInv(s, b, now);
    }
    if b < |s.batches| && s.batches[b].status != Void {
      VoidGivesVoided(s, b, now);
      VoidedRows(s, b, VoidBatch(s, b, now).value);
    }
  }

  /** The reversal a voided payout posts names the payout and takes it back account by account. */
  lemma VoidReverses(s: State, b: nat, now: Time)
    requires Inv(s) && b < |s.batches| && s.batches[b].status == PaidOut
    ensures VoidBatch(s, b, now).Ok?
    ensures var s' := VoidBatch(s, b, now).value;
            && |s'.txns| == |s.txns| + 1 && s.txns <= s'.txns
            && var r := s'.txns[|s.txns|];
            && r.kind == Reversal && r.at == now && r.reverses.Some? && r.reverses.value < |s.txns|
            && PaysBatch(s, r.reverses.value, b) && r.ref == s.txns[r.reverses.value].ref
            && (forall a: Account :: Balance(s', a) == Balance(s, a) - EffectOn(a)(s.txns[r.reverses.value]))
            && (forall n: NodeId ::
                  Balance(s', HostAvailable(n)) == Balance(s, HostAvailable(n)) - BatchWorthTo(s, b, n))
            && Balance(s', PayoutCash) == Balance(s, PayoutCash) + Sum(s.items, ItemIn(b))
  {
    VoidKeepsInv(s, b, now);
    PaidBatchHasTxn(s, b);
    var s', t := VoidBatch(s, b, now).value, PayoutTxn(s.items, b).value;
    var r := s'.txns[|s.txns|];
    assert s'.txns == s.txns + [r];
    ReversalNegates(s.txns[t], r);
    TxnAppended(s, r, s');
  }
}
