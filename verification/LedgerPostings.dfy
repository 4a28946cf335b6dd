/** Posting an accepted job, posting verification overhead and releasing credit keep the ledger's invariant. */
module LedgerPostings {
  import opened Options
  import opened Int64
  import opened Sums
  import opened Charges
  import opened Ledger
  import opened LedgerInvariant

  /**
   The entries of an acceptance add up to twice the clamped overhead: it lowers the margin and is also
   booked as an entry of its own. Only an overhead that drives the margin below the int64 range makes
   the sum differ, by 2^64; balanced it is exactly without overhead, whatever the prices.
   */
  lemma AcceptanceSum(p: Posting, q: Pricing)
    requires Fits(p.overhead)
    ensures var o, sum := ClampedOverhead(p.overhead), Sum(AcceptanceEntries(p, q), AmountOf());
            && (sum - 2 * o) % TWO64 == 0
            && (sum == 2 * o <==> CustomerCharge(p.usage, q.prices) - HostCredit(p.usage, q.prices) - o > -TWO63)
    ensures Balanced(AcceptanceEntries(p, q)) <==> p.overhead <= 0
  {
    CustomerChargeExact(p.usage, q.prices);
    AcceptanceTotal(p, q);
    var charge, credit, o := CustomerCharge(p.usage, q.prices), HostCredit(p.usage, q.prices),
      ClampedOverhead(p.overhead);
    MarginEntry(charge, credit, o);
  }

  lemma MarginEntry(charge: int, credit: int, o: int)
    requires -TWO63 / 32 < charge < TWO63 / 32 && -TWO63 / 64 < credit < TWO63 / 64 && 0 <= o < TWO63
    ensures var sum := charge + Wrap(-credit) + o + Wrap(-Wrap(Wrap(charge - credit) - o));
            && (sum - 2 * o) % TWO64 == 0 && (sum == 0 <==> o == 0)
            && (sum == 2 * o <==> charge - credit - o > -TWO63)
  {
  }

  lemma AcceptanceTotal(p: Posting, q: Pricing)
    ensures Sum(AcceptanceEntries(p, q), AmountOf())
            == CustomerCharge(p.usage, q.prices) + Wrap(-HostCredit(p.usage, q.prices)) + ClampedOverhead(p.overhead)
               + Wrap(-PlatformMargin(p.usage, q.prices, p.overhead))
  {
    var e1 := Entry(CustomerUsage(q.org), CustomerCharge(p.usage, q.prices));
    var e2 := Entry(HostPending(q.node), Wrap(-HostCredit(p.usage, q.prices)));
    var e4 := Entry(Margin, Wrap(-PlatformMargin(p.usage, q.prices, p.overhead)));
    if ClampedOverhead(p.overhead) > 0 {
      var e3 := Entry(Verification, ClampedOverhead(p.overhead));
      assert AcceptanceEntries(p, q) == [e1, e2, e3] + [e4];
      SumAppend([e1, e2, e3], e4, AmountOf());
      ThreeEntries(e1, e2, e3, AmountOf());
    } else {
      assert AcceptanceEntries(p, q) == [e1, e2, e4];
      ThreeEntries(e1, e2, e4, AmountOf());
    }
  }

  /** What one posting must provide for the tables to stay reconciled. */
  ghost predicate CreditsHold(t: Txn, h: Hold) {
    && Balanced(t.entries)
    && KindOk(t)
    && t.kind != CreditRelease
    && h.state == Pending && h.batch.None? && 0 <= h.amount && Fits(h.amount)
    && (forall n: NodeId :: EffectOn(HostPending(n))(t) == if n == h.node then -h.amount else 0)
    && (forall n: NodeId :: EffectOn(HostAvailable(n))(t) == 0)
    && EffectOn(PayoutCash)(t) == 0
  }

  lemma HoldAppended(s: State, h: Hold, s': State)
    requires s'.holds == s.holds + [h]
    ensures forall n: NodeId :: Sum(s'.holds, PendingOf(n)) == Sum(s.holds, PendingOf(n)) + PendingOf(n)(h)
    ensures forall n: NodeId :: Sum(s'.holds, OwedTo(n)) == Sum(s.holds, OwedTo(n)) + OwedTo(n)(h)
    ensures Sum(s'.holds, PaidAmount()) == Sum(s.holds, PaidAmount()) + PaidAmount()(h)
    ensures forall b: nat :: Sum(s'.holds, HeldIn(b)) == Sum(s.holds, HeldIn(b)) + HeldIn(b)(h)
    ensures forall b: nat, n: NodeId ::
            Sum(s'.holds, HeldInFor(b, n)) == Sum(s.holds, HeldInFor(b, n)) + HeldInFor(b, n)(h)
  {
    forall n: NodeId ensures Sum(s'.holds, PendingOf(n)) == Sum(s.holds, PendingOf(n)) + PendingOf(n)(h) {
      SumAppend(s.holds, h, PendingOf(n));
    }
    forall n: NodeId ensures Sum(s'.holds, OwedTo(n)) == Sum(s.holds, OwedTo(n)) + OwedTo(n)(h) {
      SumAppend(s.holds, h, OwedTo(n));
    }
    SumAppend(s.holds, h, PaidAmount());
    forall b: nat ensures Sum(s'.holds, HeldIn(b)) == Sum(s.holds, HeldIn(b)) + HeldIn(b)(h) {
      SumAppend(s.holds, h, HeldIn(b));
    }
    forall b: nat, n: NodeId
      ensures Sum(s'.holds, HeldInFor(b, n)) == Sum(s.holds, HeldInFor(b, n)) + HeldInFor(b, n)(h)
    {
      SumAppend(s.holds, h, HeldInFor(b, n));
    }
  }

  /** A release names an existing hold, so none names the next hold to be inserted. */
  lemma {:induction false} NoReleaseAhead(txns: seq<Txn>, bound: nat, h: nat)
    requires forall t | 0 <= t < |txns| && txns[t].kind == CreditRelease ::
               txns[t].ref.ForHold? && txns[t].ref.hold < bound
    requires h >= bound
    ensures Sum(txns, ReleaseOf(h)) == 0
  {
    SumZero(txns, ReleaseOf(h));
  }

  lemma PaidItemsSurvive(s: State, s': State)
    requires PaidItemsPosted(s)
    requires s.txns <= s'.txns && s'.items == s.items
    ensures PaidItemsPosted(s')
  {
    forall i | 0 <= i < |s'.items| && s'.items[i].status == ItemPaid
      ensures s'.items[i].txn.Some? && PaysBatch(s', s'.items[i].txn.value, s'.items[i].batch)
    {
      var t := s.items[i].txn.value;
      assert PaysBatch(s, t, s.items[i].batch);
      assert s'.txns[t] == s.txns[t];
    }
  }

  lemma CreditsHost(t: Txn, h: Hold, n: NodeId)
    requires CreditsHold(t, h)
    ensures EffectOn(HostPending(n))(t) == -PendingOf(n)(h) && EffectOn(HostAvailable(n))(t) == -OwedTo(n)(h)
  {
  }

  lemma PostingReconcilesHost(s: State, t: Txn, h: Hold, n: NodeId)
    requires HostReconciled(s, n)
    requires EffectOn(HostPending(n))(t) == -PendingOf(n)(h) && EffectOn(HostAvailable(n))(t) == -OwedTo(n)(h)
    ensures HostReconciled(WithPosting(s, t, h), n)
  {
    BothAppended(s.txns, t, s.holds, h, EffectOn(HostPending(n)), PendingOf(n));
    BothAppended(s.txns, t, s.holds, h, EffectOn(HostAvailable(n)), OwedTo(n));
  }

  /** A transaction and a hold of opposite worth keep two opposite sums opposite. */
  lemma BothAppended(txns: seq<Txn>, t: Txn, holds: seq<Hold>, h: Hold, effect: Txn -> int, worth: Hold -> int)
    requires Sum(txns, effect) == -Sum(holds, worth) && effect(t) == -worth(h)
    ensures Sum(txns + [t], effect) == -Sum(holds + [h], worth)
  {
    SumAppend(txns, t, effect);
    SumAppend(holds, h, worth);
  }

  lemma PostingReconciles(s: State, t: Txn, h: Hold)
    requires Reconciled(s) && CreditsHold(t, h)
    ensures Reconciled(WithPosting(s, t, h))
  {
    forall n: NodeId ensures HostReconciled(WithPosting(s, t, h), n) {
      CreditsHost(t, h, n);
      PostingReconcilesHost(s, t, h, n);
    }
    SumAppend(s.txns, t, EffectOn(PayoutCash));
    SumAppend(s.holds, h, PaidAmount());
  }

  lemma PostingKeepsRows(s: State, t: Txn, h: Hold)
    requires RowsOk(s) && LiveBatchesAgree(s) && CreditsHold(t, h)
    ensures RowsOk(WithPosting(s, t, h)) && LiveBatchesAgree(WithPosting(s, t, h))
  {
    var s' := WithPosting(s, t, h);
    HoldAppended(s, h, s');
    forall b: nat | b < |s'.batches| && s'.batches[b].status != Void ensures BatchAgrees(s', b) {
      assert BatchAgrees(s, b);
    }
    forall g | 0 <= g < |s'.holds| ensures HoldOk(s', s'.holds[g]) {
      if g < |s.holds| { assert HoldOk(s, s.holds[g]); }
    }
    forall i | 0 <= i < |s'.items| ensures ItemOk(s', s'.items[i]) {
      assert ItemOk(s, s.items[i]);
    }
  }

  lemma PostingKeepsReleases(s: State, t: Txn, h: Hold)
    requires ReleasedOnce(s) && ReleasesInTime(s) && CreditsHold(t, h)
    ensures ReleasedOnce(WithPosting(s, t, h)) && ReleasesInTime(WithPosting(s, t, h))
  {
    var s' := WithPosting(s, t, h);
    TxnAppended(s, t, s');
    NoReleaseAhead(s.txns, |s.holds|, |s.holds|);
    forall k | 0 <= k < |s'.txns| && s'.txns[k].kind == CreditRelease
      ensures s'.txns[k].ref.ForHold? && s'.txns[k].ref.hold < |s'.holds|
              && s'.holds[s'.txns[k].ref.hold].availableAt <= s'.txns[k].at
    {
      assert s'.txns[k] == s.txns[k];
    }
  }

  /** The common core of the two postings: append a transaction and the hold it credits. */
  lemma PostingKeepsInv(s: State, t: Txn, h: Hold)
    requires Inv(s) && CreditsHold(t, h)
    requires t.kind == JobAcceptance ==> t.ref.ForJob? && !HasAcceptance(s, t.ref.job)
    requires !HasHold(s, h.attempt)
    ensures Inv(WithPosting(s, t, h))
  {
    var s' := WithPosting(s, t, h);
    PostingReconciles(s, t, h);
    PostingKeepsRows(s, t, h);
    PostingKeepsReleases(s, t, h);
    PaidItemsSurvive(s, s');
    TxnAppended(s, t, s');
    forall j: JobId ensures Sum(s'.txns, AcceptanceOf(j)) <= 1 {
      if AcceptanceOf(j)(t) == 1 {
        SumZero(s.txns, AcceptanceOf(j));
      }
    }
    forall b: nat | b < |s'.batches| ensures BatchOk(s', b) {
      assert BatchOk(s, b);
    }
  }

  lemma AcceptanceCredits(s: State, p: Posting, q: Pricing)
    requires HostCredit(p.usage, q.prices) >= 0
    requires Balanced(AcceptanceEntries(p, q))
    requires p.overhead <= 0
    ensures CreditsHold(Txn(JobAcceptance, ForJob(p.job), None, AcceptanceEntries(p, q), p.receivedAt),
            NewHold(s, p, q))
  {
    var credit := HostCredit(p.usage, q.prices);
    ChargeBounded(p.usage.completion, q.prices.host);
    var e1 := Entry(CustomerUsage(q.org), CustomerCharge(p.usage, q.prices));
    var e2 := Entry(HostPending(q.node), -credit);
    var e3 := Entry(Margin, Wrap(-PlatformMargin(p.usage, q.prices, p.overhead)));
    var t := Txn(JobAcceptance, ForJob(p.job), None, AcceptanceEntries(p, q), p.receivedAt);
    assert t.entries == [e1, e2, e3];
    ThreeEffects(t, e1, e2, e3);
  }

  lemma PostAcceptedKeepsInv(s: State, p: Posting, pricing: Option<Pricing>)
    requires Inv(s) && Fits(p.overhead)
    ensures PostAccepted(s, p, pricing).Ok? ==> Inv(PostAccepted(s, p, pricing).value)
  {
    if PostAccepted(s, p, pricing).Ok? {
      var q := pricing.value;
      AcceptanceSum(p, q);
      AcceptanceCredits(s, p, q);
      PostingKeepsInv(s, Txn(JobAcceptance, ForJob(p.job), None, AcceptanceEntries(p, q), p.receivedAt),
        NewHold(s, p, q));
    }
  }

  lemma VerificationCredits(s: State, p: Posting, q: Pricing)
    requires HostCredit(p.usage, q.prices) >= 0
    ensures Balanced(VerificationEntries(p, q))
    ensures CreditsHold(Txn(VerificationCost, ForJob(p.job), None, VerificationEntries(p, q), p.receivedAt),
            NewHold(s, p, q))
  {
    var credit := HostCredit(p.usage, q.prices);
    ChargeBounded(p.usage.completion, q.prices.host);
    var e1 := Entry(Verification, credit);
    var e2 := Entry(HostPending(q.node), -credit);
    assert VerificationEntries(p, q) == [e1, e2];
    TwoEntries(e1, e2, AmountOf());
    forall a: Account ensures Sum([e1, e2], AmountOn(a)) == AmountOn(a)(e1) + AmountOn(a)(e2) {
      TwoEntries(e1, e2, AmountOn(a));
    }
  }

  lemma PostVerificationKeepsInv(s: State, p: Posting, pricing: Option<Pricing>)
    requires Inv(s)
    ensures PostVerification(s, p, pricing).Ok? ==> Inv(PostVerification(s, p, pricing).value)
  {
    if PostVerification(s, p, pricing).Ok? {
      var q := pricing.value;
      VerificationCredits(s, p, q);
      PostingKeepsInv(s, Txn(VerificationCost, ForJob(p.job), None, VerificationEntries(p, q), p.receivedAt),
        NewHold(s, p, q));
    }
  }

  /** Verification is paid by the platform: no customer balance moves. */
  lemma VerificationSparesCustomers(s: State, p: Posting, pricing: Option<Pricing>, org: OrgId)
    requires PostVerification(s, p, pricing).Ok?
    ensures Balance(PostVerification(s, p, pricing).value, CustomerUsage(org)) == Balance(s, CustomerUsage(org))
    ensures Balance(PostVerification(s, p, pricing).value, Verification)
            == Balance(s, Verification) + HostCredit(p.usage, pricing.value.prices)
  {
    var q := pricing.value;
    var s' := PostVerification(s, p, pricing).value;
    var t := Txn(VerificationCost, ForJob(p.job), None, VerificationEntries(p, q), p.receivedAt);
    TxnAppended(s, t, s');
    var credit := HostCredit(p.usage, q.prices);
    var e1 := Entry(Verification, credit);
    var e2 := Entry(HostPending(q.node), Wrap(-credit));
    TwoEntries(e1, e2, AmountOn(CustomerUsage(org)));
    TwoEntries(e1, e2, AmountOn(Verification));
  }

  // ---------------------------------------------------------------- releasing credit

  lemma HoldUpdated(s: State, h: nat, x: Hold, s': State)
    requires h < |s.holds| && s'.holds == s.holds[h := x]
    ensures forall n: NodeId ::
            Sum(s'.holds, PendingOf(n)) == Sum(s.holds, PendingOf(n)) - PendingOf(n)(s.holds[h]) + PendingOf(n)(x)
    ensures forall n: NodeId ::
            Sum(s'.holds, OwedTo(n)) == Sum(s.holds, OwedTo(n)) - OwedTo(n)(s.holds[h]) + OwedTo(n)(x)
    ensures Sum(s'.holds, PaidAmount()) == Sum(s.holds, PaidAmount()) - PaidAmount()(s.holds[h]) + PaidAmount()(x)
    ensures forall b: nat :: Sum(s'.holds, HeldIn(b)) == Sum(s.holds, HeldIn(b)) - HeldIn(b)(s.holds[h]) + HeldIn(b)(x)
    ensures forall b: nat, n: NodeId ::
              Sum(s'.holds, HeldInFor(b, n))
                == Sum(s.holds, HeldInFor(b, n)) - HeldInFor(b, n)(s.holds[h]) + HeldInFor(b, n)(x)
  {
    forall n: NodeId
      ensures Sum(s'.holds, PendingOf(n)) == Sum(s.holds, PendingOf(n)) - PendingOf(n)(s.holds[h]) + PendingOf(n)(x)
    {
      SumUpdate(s.holds, h, x, PendingOf(n));
    }
    forall n: NodeId
      ensures Sum(s'.holds, OwedTo(n)) == Sum(s.holds, OwedTo(n)) - OwedTo(n)(s.holds[h]) + OwedTo(n)(x)
    {
      SumUpdate(s.holds, h, x, OwedTo(n));
    }
    SumUpdate(s.holds, h, x, PaidAmount());
    forall b: nat ensures Sum(s'.holds, HeldIn(b)) == Sum(s.holds, HeldIn(b)) - HeldIn(b)(s.holds[h]) + HeldIn(b)(x) {
      SumUpdate(s.holds, h, x, HeldIn(b));
    }
    forall b: nat, n: NodeId
      ensures Sum(s'.holds, HeldInFor(b, n))
              == Sum(s.holds, HeldInFor(b, n)) - HeldInFor(b, n)(s.holds[h]) + HeldInFor(b, n)(x)
    {
      SumUpdate(s.holds, h, x, HeldInFor(b, n));
    }
  }

  lemma ReleaseEffects(h: Hold, t: Txn)
    requires t.entries == ReleaseEntries(h)
    ensures Balanced(t.entries)
    ensures forall n: NodeId :: EffectOn(HostPending(n))(t) == if n == h.node then h.amount else 0
    ensures forall n: NodeId :: EffectOn(HostAvailable(n))(t) == if n == h.node then -h.amount else 0
    ensures EffectOn(PayoutCash)(t) == 0
  {
    var e1 := Entry(HostPending(h.node), h.amount);
    var e2 := Entry(HostAvailable(h.node), -h.amount);
    TwoEntries(e1, e2, AmountOf());
    forall a: Account ensures Sum([e1, e2], AmountOn(a)) == AmountOn(a)(e1) + AmountOn(a)(e2) {
      TwoEntries(e1, e2, AmountOn(a));
    }
  }

  lemma ReleaseReconciles(s: State, h: nat, now: Time)
    requires Reconciled(s) && h < |s.holds| && s.holds[h].state == Pending
    ensures Reconciled(ReleaseOne(s, h, now))
  {
    var s' := ReleaseOne(s, h, now);
    var t := s'.txns[|s.txns|];
    TxnAppended(s, t, s');
    ReleaseEffects(s.holds[h], t);
    HoldUpdated(s, h, s'.holds[h], s');
    forall n: NodeId ensures HostReconciled(s', n) {
      assert HostReconciled(s, n);
    }
  }

  lemma ReleaseKeepsRows(s: State, h: nat, now: Time)
    requires RowsOk(s) && LiveBatchesAgree(s) && h < |s.holds| && s.holds[h].state == Pending
    ensures RowsOk(ReleaseOne(s, h, now)) && LiveBatchesAgree(ReleaseOne(s, h, now))
  {
    var s' := ReleaseOne(s, h, now);
    HoldUpdated(s, h, s'.holds[h], s');
    assert HoldOk(s, s.holds[h]);
    forall b: nat | b < |s'.batches| && s'.batches[b].status != Void ensures BatchAgrees(s', b) {
      assert BatchAgrees(s, b);
    }
    forall g | 0 <= g < |s'.holds| ensures HoldOk(s', s'.holds[g]) {
      assert HoldOk(s, s.holds[g]);
    }
    forall i | 0 <= i < |s'.items| ensures ItemOk(s', s'.items[i]) {
      assert ItemOk(s, s.items[i]);
    }
  }

  lemma ReleaseKeepsReleases(s: State, h: nat, now: Time)
    requires ReleasedOnce(s) && ReleasesInTime(s) && Releasable(s, now, h)
    ensures ReleasedOnce(ReleaseOne(s, h, now)) && ReleasesInTime(ReleaseOne(s, h, now))
  {
    var s' := ReleaseOne(s, h, now);
    TxnAppended(s, s'.txns[|s.txns|], s');
  }

  lemma ReleaseOneKeepsInv(s: State, h: nat, now: Time)
    requires Inv(s) && Releasable(s, now, h)
    ensures Inv(ReleaseOne(s, h, now))
  {
    var s' := ReleaseOne(s, h, now);
    var t := s'.txns[|s.txns|];
    ReleaseReconciles(s, h, now);
    ReleaseKeepsRows(s, h, now);
    ReleaseKeepsReleases(s, h, now);
    PaidItemsSurvive(s, s');
    TxnAppended(s, t, s');
    ReleaseEffects(s.holds[h], t);
    forall b: nat | b < |s'.batches| ensures BatchOk(s', b) {
      assert BatchOk(s, b);
    }
  }

  /** The release loop: the holds named so far are available, every other hold is as before. */
  lemma {:induction false} ReleasedHolds(s: State, rows: seq<nat>, now: Time, h: nat)
    requires InTable(rows, |s.holds|) && h < |s.holds|
    ensures Release(s, rows, now).holds[h] == if h in rows then s.holds[h].(state := Available) else s.holds[h]
  {
    if rows != [] {
      var n := |rows| - 1;
      ReleasedHolds(s, rows[..n], now, h);
      assert rows == rows[..n] + [rows[n]];
    }
  }

  lemma {:induction false} ReleaseKeepsInv(s: State, rows: seq<nat>, now: Time)
    requires Inv(s) && Distinct(rows) && AllReleasable(s, now, rows)
    ensures InTable(rows, |s.holds|)
    ensures Inv(Release(s, rows, now))
  {
    if rows != [] {
      var n := |rows| - 1;
      var before := rows[..n];
      ReleaseKeepsInv(s, before, now);
      ReleasedHolds(s, before, now, rows[n]);
      assert rows[n] !in before;
      assert Releasable(s, now, rows[n]);
      ReleaseOneKeepsInv(Release(s, before, now), rows[n], now);
    }
  }

  /** Releasing every due hold leaves no hold both pending and due, and touches no other hold. */
  lemma PromoteReleasesExactlyTheDue(s: State, rows: seq<nat>, now: Time, h: nat)
    requires InTable(rows, |s.holds|) && DueRows(s, now, rows) && h < |s.holds|
    ensures Release(s, rows, now).holds[h]
            == if Releasable(s, now, h) then s.holds[h].(state := Available) else s.holds[h]
    ensures !Releasable(Release(s, rows, now), now, h)
  {
    ReleasedHolds(s, rows, now, h);
    if h in rows {
      var i :| 0 <= i < |rows| && rows[i] == h;
      assert Releasable(s, now, rows[i]);
    }
  }
}
