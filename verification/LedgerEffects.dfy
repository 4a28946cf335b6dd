/** When the ledger's steps commit, what they move, and which of them undo each other. */
module LedgerEffects {
  import opened Options
  import opened Int64
  import opened Sums
  import opened Charges
  import opened Ledger
  import opened LedgerInvariant
  import opened LedgerPostings
  import opened LedgerPayouts

  /**
   Whatever the prices, an accepted job is posted exactly when it was not posted before, its attempt
   has no hold, it carries no overhead and its credit did not overflow to a negative one; then the
   customer is charged, the host credited, and the margin is the rest.
   */
  lemma AcceptanceMoves(s: State, p: Posting, q: Pricing)
    requires Fits(p.overhead)
    ensures PostAccepted(s, p, Some(q)).Ok? <==>
            !HasAcceptance(s, p.job) && !HasHold(s, p.attempt) && p.overhead <= 0 && HostCredit(p.usage, q.prices) >= 0
    ensures PostAccepted(s, p, Some(q)).Ok? ==>
              var s' := PostAccepted(s, p, Some(q)).value;
              var charge, credit := CustomerCharge(p.usage, q.prices), HostCredit(p.usage, q.prices);
              && Balance(s', CustomerUsage(q.org)) == Balance(s, CustomerUsage(q.org)) + charge
              && Balance(s', HostPending(q.node)) == Balance(s, HostPending(q.node)) - credit
              && Balance(s', Margin) == Balance(s, Margin) - (charge - credit)
  {
    AcceptanceSum(p, q);
    CustomerChargeExact(p.usage, q.prices);
    if PostAccepted(s, p, Some(q)).Ok? {
      var s' := PostAccepted(s, p, Some(q)).value;
      var e1 := Entry(CustomerUsage(q.org), CustomerCharge(p.usage, q.prices));
      var e2 := Entry(HostPending(q.node), -HostCredit(p.usage, q.prices));
      var e3 := Entry(Margin, -PlatformMargin(p.usage, q.prices, p.overhead));
      var t := Txn(JobAcceptance, ForJob(p.job), None, AcceptanceEntries(p, q), p.receivedAt);
      assert t.entries == [e1, e2, e3];
      ThreeEffects(t, e1, e2, e3);
      TxnAppended(s, t, s');
    }
  }

  /** One microdollar of overhead on a job without tokens: the entries are off by two and the posting is refused. */
  lemma AcceptanceWithOverhead(s: State, p: Posting, q: Pricing)
    requires p.usage == Usage(0, 0) && p.overhead == 1
    ensures Sum(AcceptanceEntries(p, q), AmountOf()) == 2 && PostAccepted(s, p, Some(q)).Err?
  {
    AcceptanceSum(p, q);
    AcceptanceMoves(s, p, q);
  }

  /** A posted acceptance is the job's only one. */
  lemma AcceptanceCountedOnce(s: State, p: Posting, pricing: Option<Pricing>)
    requires PostAccepted(s, p, pricing).Ok?
    ensures Sum(s.txns, AcceptanceOf(p.job)) == 0
    ensures Sum(PostAccepted(s, p, pricing).value.txns, AcceptanceOf(p.job)) == 1
  {
    SumZero(s.txns, AcceptanceOf(p.job));
    var s' := PostAccepted(s, p, pricing).value;
    TxnAppended(s, s'.txns[|s.txns|], s');
  }

  /** The items of a batch just confirmed all name the payout transaction. */
  lemma ConfirmedTxn(items: seq<Item>, b: nat, t: nat, i: nat)
    requires i < |items| && items[i].batch == b
    requires forall k | 0 <= k < |items| && items[k].batch == b :: items[k].status == ItemExported
    ensures PayoutTxn(MapItems(items, MarkPaid(b, t)), b) == Some(t)
  {
    var paid := MapItems(items, MarkPaid(b, t));
    assert paid[i].batch == b && paid[i].txn == Some(t);
    assert forall k | 0 <= k < |paid| && paid[k].batch == b :: paid[k].txn == Some(t);
  }

  lemma VoidReversesLast(s: State, mid: State, b: nat, now: Time, a: Account)
    requires |mid.txns| == |s.txns| + 1 && mid.txns[..|s.txns|] == s.txns
    requires b < |mid.batches| && mid.batches[b].status == PaidOut
    requires PayoutTxn(mid.items, b) == Some(|s.txns|)
    requires mid.txns[|s.txns|].entries != [] && Balanced(mid.txns[|s.txns|].entries)
    requires forall k | 0 <= k < |mid.txns[|s.txns|].entries| :: Fits(-mid.txns[|s.txns|].entries[k].amount)
    ensures VoidBatch(mid, b, now).Ok?
    ensures Balance(VoidBatch(mid, b, now).value, a) == Balance(s, a)
  {
    var t := mid.txns[|s.txns|];
    var r := Txn(Reversal, t.ref, Some(|s.txns|), Negated(t.entries), now);
    ReversalNegates(t, r);
    assert mid.txns == s.txns + [t];
    SumAppend(s.txns, t, EffectOn(a));
    SumAppend(mid.txns, r, EffectOn(a));
  }

  lemma SettledThenVoid(s: State, b: nat, paidAt: Time, voidedAt: Time, a: Account)
    requires RowsOk(s) && BatchesOk(s) && b < |s.batches| && s.batches[b].status == Exported
    requires PayoutTotal(s, b) > 0 && Balanced(PayoutEntries(s, b))
    ensures VoidBatch(Settled(s, b, paidAt), b, voidedAt).Ok?
    ensures Balance(VoidBatch(Settled(s, b, paidAt), b, voidedAt).value, a) == Balance(s, a)
  {
    var mid := Settled(s, b, paidAt);
    assert BatchOk(s, b);
    var i :| 0 <= i < |s.items| && s.items[i].batch == b;
    assert forall k | 0 <= k < |s.items| :: ItemOk(s, s.items[k]);
    ConfirmedTxn(s.items, b, |s.txns|, i);
    PayoutPays(s, b, paidAt);
    VoidReversesLast(s, mid, b, voidedAt, a);
  }

  /** Voiding a batch right after confirming it puts every account back where it was. */
  lemma VoidUndoesConfirm(s: State, b: nat, rows: seq<Row>, paidAt: Time, voidedAt: Time, a: Account)
    requires RowsOk(s) && BatchesOk(s) && Confirm(s, b, rows, paidAt).Ok?
    ensures VoidBatch(Confirm(s, b, rows, paidAt).value, b, voidedAt).Ok?
    ensures Balance(VoidBatch(Confirm(s, b, rows, paidAt).value, b, voidedAt).value, a) == Balance(s, a)
  {
    SettledThenVoid(s, b, paidAt, voidedAt, a);
  }

  /** Voiding a batch that was never paid gives every hold back as it was before the batch was created. */
  lemma VoidUndoesCreate(s: State, nodes: Option<set<NodeId>>, rows: seq<nat>, now: Time, h: nat)
    requires Inv(s) && PayableRows(s, nodes, rows) && InTable(rows, |s.holds|) && CreateBatch(s, rows).Ok?
             && h < |s.holds|
    ensures VoidBatch(CreateBatch(s, rows).value, |s.batches|, now).Ok?
    ensures var s' := VoidBatch(CreateBatch(s, rows).value, |s.batches|, now).value;
            |s'.holds| == |s.holds| && s'.holds[h] == s.holds[h] && s'.txns == s.txns
  {
    var b := |s.batches|;
    ReservedRows(OpenBatch(s), b, rows, h);
    assert HoldOk(s, s.holds[h]);
    if h in rows {
      var i :| 0 <= i < |rows| && rows[i] == h;
      assert Payable(s, nodes, rows[i]);
    }
  }
}
