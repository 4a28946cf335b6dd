/**
 What every committed state of the ledger satisfies: the entries, the credit holds and the
 payout items tell one story.
 */
module LedgerInvariant {
  import opened Options
  import opened Int64
  import opened Sums
  import opened Ledger

  ghost predicate EveryTxnBalanced(s: State) {
    forall t | 0 <= t < |s.txns| :: Balanced(s.txns[t].entries)
  }

  /** Per host, each credit account owes exactly what the holds in the matching states add up to. */
  ghost predicate HostReconciled(s: State, n: NodeId) {
    && Balance(s, HostPending(n)) == -Sum(s.holds, PendingOf(n))
    && Balance(s, HostAvailable(n)) == -Sum(s.holds, OwedTo(n))
  }

  ghost predicate Reconciled(s: State) {
    && (forall n: NodeId :: HostReconciled(s, n))
    && Balance(s, PayoutCash) == -Sum(s.holds, PaidAmount())
  }

  predicate HoldStateAgrees(state: HoldState, status: BatchStatus) {
    match status
    case Draft => state == PayoutPending
    case Exported => state == PayoutPending
    case PaidOut => state == Paid
    case Void => state == Reversed
  }

  ghost predicate HoldOk(s: State, h: Hold) {
    && 0 <= h.amount && Fits(h.amount)
    && (h.batch.None? <==> h.state == Pending || h.state == Available)
    && (h.batch.Some? ==> h.batch.value < |s.batches| && HoldStateAgrees(h.state, s.batches[h.batch.value].status))
  }

  function StatusIn(status: BatchStatus): ItemStatus {
    match status
    case Draft => ItemPending
    case Exported => ItemExported
    case PaidOut => ItemPaid
    case Void => ItemVoid
  }

  ghost predicate ItemOk(s: State, i: Item) {
    && i.batch < |s.batches|
    && i.hold < |s.holds|
    && i.status == StatusIn(s.batches[i.batch].status)
    && i.amount == s.holds[i.hold].amount
    && i.node == s.holds[i.hold].node
    && i.amount > 0
    && (i.status != ItemVoid ==> s.holds[i.hold].batch == Some(i.batch))
  }

  /** No credit is promised twice: live items name different holds. */
  ghost predicate LiveItemsDiffer(s: State) {
    forall i, j | 0 <= i < j < |s.items| && s.items[i].status != ItemVoid && s.items[j].status != ItemVoid ::
      s.items[i].hold != s.items[j].hold
  }

  ghost predicate HoldsOk(s: State) {
    forall h | 0 <= h < |s.holds| :: HoldOk(s, s.holds[h])
  }

  ghost predicate ItemsOk(s: State) {
    forall i | 0 <= i < |s.items| :: ItemOk(s, s.items[i])
  }

  ghost predicate RowsOk(s: State) {
    HoldsOk(s) && ItemsOk(s) && LiveItemsDiffer(s)
  }

  /** The holds reserved by a live batch and its items are worth the same, in all and per host. */
  ghost predicate BatchAgrees(s: State, b: nat) {
    && Sum(s.holds, HeldIn(b)) == Sum(s.items, ItemIn(b))
    && (forall n: NodeId :: Sum(s.holds, HeldInFor(b, n)) == Sum(s.items, ItemInFor(b, n)))
  }

  ghost predicate LiveBatchesAgree(s: State) {
    forall b: nat | b < |s.batches| && s.batches[b].status != Void :: BatchAgrees(s, b)
  }

  /** A payout transaction takes from every host what the batch pays it, and all of it from cash. */
  ghost predicate PaysBatch(s: State, t: nat, b: nat) {
    && t < |s.txns|
    && s.txns[t].entries != []
    && (forall k | 0 <= k < |s.txns[t].entries| :: Fits(-s.txns[t].entries[k].amount))
    && (forall n: NodeId :: EffectOn(HostPending(n))(s.txns[t]) == 0)
    && (forall n: NodeId :: EffectOn(HostAvailable(n))(s.txns[t]) == Sum(s.items, ItemInFor(b, n)))
    && EffectOn(PayoutCash)(s.txns[t]) == -Sum(s.items, ItemIn(b))
  }

  ghost predicate PaidItemsPosted(s: State) {
    forall i | 0 <= i < |s.items| && s.items[i].status == ItemPaid ::
      s.items[i].txn.Some? && PaysBatch(s, s.items[i].txn.value, s.items[i].batch)
  }

  /** A hold has left pending exactly when one release names it, dated no earlier than it allows. */
  ghost predicate ReleasedOnce(s: State) {
    forall h: nat | h < |s.holds| :: Sum(s.txns, ReleaseOf(h)) == if s.holds[h].state == Pending then 0 else 1
  }

  ghost predicate ReleasesInTime(s: State) {
    forall t | 0 <= t < |s.txns| && s.txns[t].kind == CreditRelease ::
      s.txns[t].ref.ForHold? && s.txns[t].ref.hold < |s.holds|
        && s.holds[s.txns[t].ref.hold].availableAt <= s.txns[t].at
  }

  ghost predicate OneHoldPerAttempt(s: State) {
    forall g, h | 0 <= g < h < |s.holds| :: s.holds[g].attempt != s.holds[h].attempt
  }

  ghost predicate OneAcceptancePerJob(s: State) {
    forall j: JobId :: Sum(s.txns, AcceptanceOf(j)) <= 1
  }

  /** The only kinds the steps post, and none of them books verification cost on an acceptance. */
  ghost predicate KindsOk(s: State) {
    forall t | 0 <= t < |s.txns| :: KindOk(s.txns[t])
  }

  ghost predicate KindOk(t: Txn) {
    && t.kind != FailedAttemptCost
    && (t.kind == JobAcceptance ==>
          forall k | 0 <= k < |t.entries| ::
            t.entries[k].account.CustomerUsage? || t.entries[k].account.HostPending? || t.entries[k].account.Margin?)
  }

  /** What the posted transactions record about jobs, attempts and holds. */
  ghost predicate History(s: State) {
    && EveryTxnBalanced(s)
    && ReleasedOnce(s)
    && ReleasesInTime(s)
    && OneHoldPerAttempt(s)
    && OneAcceptancePerJob(s)
    && KindsOk(s)
  }

  /** Everything but the recorded batch totals, which a batch under construction does not have yet. */
  ghost predicate Core(s: State) {
    && Reconciled(s)
    && RowsOk(s)
    && LiveBatchesAgree(s)
    && PaidItemsPosted(s)
    && History(s)
  }

  ghost predicate HasItem(s: State, b: nat) {
    exists i | 0 <= i < |s.items| :: s.items[i].batch == b
  }

  ghost predicate BatchOk(s: State, b: nat)
    requires b < |s.batches|
  {
    && s.batches[b].total == Wrap(Sum(s.items, ItemIn(b)))
    && HasItem(s, b)
    && (s.batches[b].status == PaidOut ==> Fits(Sum(s.items, ItemIn(b))))
  }

  ghost predicate BatchesOk(s: State) {
    forall b: nat | b < |s.batches| :: BatchOk(s, b)
  }

  ghost predicate Inv(s: State) {
    Core(s) && BatchesOk(s)
  }

  lemma NoRowsInv(s: State)
    requires |s.txns| == |s.holds| == |s.batches| == |s.items| == 0
    ensures Inv(s)
  {
    forall n: NodeId ensures HostReconciled(s, n) {
    }
  }

  lemma EmptyInv()
    ensures Inv(EMPTY)
  {
    var s := EMPTY;
    NoRowsInv(s);
  }

  // ---------------------------------------------------------------- appending a transaction

  /** Balances move by the effect of the appended transaction, and counts of postings by its kind. */
  lemma TxnAppended(s: State, t: Txn, s': State)
    requires s'.txns == s.txns + [t]
    ensures forall a: Account :: Balance(s', a) == Balance(s, a) + EffectOn(a)(t)
    ensures forall h: nat :: Sum(s'.txns, ReleaseOf(h)) == Sum(s.txns, ReleaseOf(h)) + ReleaseOf(h)(t)
    ensures forall j: JobId :: Sum(s'.txns, AcceptanceOf(j)) == Sum(s.txns, AcceptanceOf(j)) + AcceptanceOf(j)(t)
    ensures forall j: JobId :: Sum(s'.txns, VerificationOf(j)) == Sum(s.txns, VerificationOf(j)) + VerificationOf(j)(t)
  {
    forall a: Account ensures Balance(s', a) == Balance(s, a) + EffectOn(a)(t) {
      SumAppend(s.txns, t, EffectOn(a));
    }
    forall h: nat ensures Sum(s'.txns, ReleaseOf(h)) == Sum(s.txns, ReleaseOf(h)) + ReleaseOf(h)(t) {
      SumAppend(s.txns, t, ReleaseOf(h));
    }
    forall j: JobId ensures Sum(s'.txns, AcceptanceOf(j)) == Sum(s.txns, AcceptanceOf(j)) + AcceptanceOf(j)(t) {
      SumAppend(s.txns, t, AcceptanceOf(j));
    }
    forall j: JobId ensures Sum(s'.txns, VerificationOf(j)) == Sum(s.txns, VerificationOf(j)) + VerificationOf(j)(t) {
      SumAppend(s.txns, t, VerificationOf(j));
    }
  }

  /** Holds whose identity and pending state a step has left alone. */
  ghost predicate SameHistory(holds: seq<Hold>, holds': seq<Hold>) {
    && |holds'| == |holds|
    && forall h | 0 <= h < |holds| ::
         && holds'[h].attempt == holds[h].attempt
         && holds'[h].availableAt == holds[h].availableAt
         && (holds'[h].state == Pending <==> holds[h].state == Pending)
  }

  lemma HistoryKept(s: State, s': State)
    requires History(s) && s'.txns == s.txns && SameHistory(s.holds, s'.holds)
    ensures History(s')
  {
  }

  lemma HistoryAppended(s: State, t: Txn, s': State)
    requires History(s) && s'.txns == s.txns + [t] && SameHistory(s.holds, s'.holds)
    requires Balanced(t.entries) && KindOk(t) && t.kind != CreditRelease && t.kind != JobAcceptance
    ensures History(s')
  {
    TxnAppended(s, t, s');
  }

  lemma TwoEntries(x: Entry, y: Entry, f: Entry -> int)
    ensures Sum([x, y], f) == f(x) + f(y)
  {
    assert [x, y] == [x] + [y];
    SumAppend([x], y, f);
    SumAppend([], x, f);
    assert [] + [x] == [x];
  }

  lemma ThreeEffects(t: Txn, x: Entry, y: Entry, z: Entry)
    requires t.entries == [x, y, z]
    ensures forall a: Account :: EffectOn(a)(t) == AmountOn(a)(x) + AmountOn(a)(y) + AmountOn(a)(z)
  {
    forall a: Account ensures EffectOn(a)(t) == AmountOn(a)(x) + AmountOn(a)(y) + AmountOn(a)(z) {
      ThreeEntries(x, y, z, AmountOn(a));
    }
  }

  lemma ThreeEntries(x: Entry, y: Entry, z: Entry, f: Entry -> int)
    ensures Sum([x, y, z], f) == f(x) + f(y) + f(z)
  {
    assert [x, y, z] == [x, y] + [z];
    SumAppend([x, y], z, f);
    TwoEntries(x, y, f);
  }
}
