/**
 What a committed posting adds to the ledger, to the last account, and how long the credit it grants
 is held: exactly until the first promotion dated late enough.
 */
module LedgerHolds {
  import opened Options
  import opened Int64
  import opened Charges
  import opened Ledger
  import opened LedgerInvariant
  import opened LedgerPostings
  import opened LedgerRuns

  /** How long a credit is held, in nanoseconds: as asked for, and a day when nothing is. */
  function HoldLength(creditHold: int): (length: int)
    ensures length > 0
  {
    if creditHold > 0 then creditHold else 24 * 3600 * 1_000_000_000
  }

  /** The hold a posting adds: a pending credit of the attempt's host, dated by the posting. */
  ghost predicate HoldFor(s: State, p: Posting, q: Pricing, h: Hold) {
    && h.node == q.node && h.job == p.job && h.attempt == p.attempt && h.txn == |s.txns|
    && h.amount == HostCredit(p.usage, q.prices) && h.state == Pending && h.batch.None?
    && h.availableAt - p.receivedAt == HoldLength(p.creditHold)
  }

  /** One transaction for the job and one hold are appended, and nothing else changes. */
  ghost predicate AddsPosting(s: State, s': State, p: Posting, q: Pricing, kind: TxnKind) {
    && |s'.txns| == |s.txns| + 1 && s.txns <= s'.txns
    && s'.txns[|s.txns|].kind == kind && s'.txns[|s.txns|].ref == ForJob(p.job)
    && s'.txns[|s.txns|].at == p.receivedAt && s'.txns[|s.txns|].reverses.None?
    && |s'.holds| == |s.holds| + 1 && s.holds <= s'.holds && HoldFor(s, p, q, s'.holds[|s.holds|])
    && s'.batches == s.batches && s'.items == s.items
  }

  /** What an accepted job moves on each account. */
  function AcceptedShare(p: Posting, q: Pricing, a: Account): int {
    var charge, credit := CustomerCharge(p.usage, q.prices), HostCredit(p.usage, q.prices);
    if a == CustomerUsage(q.org) then charge
    else if a == HostPending(q.node) then -credit
    else if a == Margin then credit - charge
    else 0
  }

  /** What a verification moves on each account: the platform bears the host's credit. */
  function VerifiedShare(p: Posting, q: Pricing, a: Account): int {
    var credit := HostCredit(p.usage, q.prices);
    if a == Verification then credit else if a == HostPending(q.node) then -credit else 0
  }

  lemma AcceptanceAdds(s: State, p: Posting, pricing: Option<Pricing>, a: Account)
    requires Fits(p.overhead) && PostAccepted(s, p, pricing).Ok?
    ensures var s' := PostAccepted(s, p, pricing).value;
            && AddsPosting(s, s', p, pricing.value, JobAcceptance)
            && Balance(s', a) == Balance(s, a) + AcceptedShare(p, pricing.value, a)
  {
    var q, s' := pricing.value, PostAccepted(s, p, pricing).value;
    AcceptanceSum(p, q);
    CustomerChargeExact(p.usage, q.prices);
    var e1 := Entry(CustomerUsage(q.org), CustomerCharge(p.usage, q.prices));
    var e2 := Entry(HostPending(q.node), -HostCredit(p.usage, q.prices));
    var e3 := Entry(Margin, -PlatformMargin(p.usage, q.prices, p.overhead));
    var t := s'.txns[|s.txns|];
    assert t.entries == [e1, e2, e3];
    ThreeEffects(t, e1, e2, e3);
    TxnAppended(s, t, s');
  }

  lemma VerificationAdds(s: State, p: Posting, pricing: Option<Pricing>, a: Account)
    requires PostVerification(s, p, pricing).Ok?
    ensures var s' := PostVerification(s, p, pricing).value;
            && AddsPosting(s, s', p, pricing.value, VerificationCost)
            && Balance(s', a) == Balance(s, a) + VerifiedShare(p, pricing.value, a)
  {
    var q, s' := pricing.value, PostVerification(s, p, pricing).value;
    ChargeBounded(p.usage.completion, q.prices.host);
    var e1 := Entry(Verification, HostCredit(p.usage, q.prices));
    var e2 := Entry(HostPending(q.node), -HostCredit(p.usage, q.prices));
    var t := s'.txns[|s.txns|];
    assert t.entries == [e1, e2];
    TwoEntries(e1, e2, AmountOn(a));
    TxnAppended(s, t, s');
  }

  /**
   A verification is posted exactly when its credit did not overflow to a negative one and its attempt has
   no hold.
   */
  lemma VerificationPostedIff(s: State, p: Posting, pricing: Option<Pricing>)
    ensures PostVerification(s, p, pricing).Ok? <==>
            pricing.Some? && HostCredit(p.usage, pricing.value.prices) >= 0 && !HasHold(s, p.attempt)
  {
    if pricing.Some? {
      var q := pricing.value;
      ChargeBounded(p.usage.completion, q.prices.host);
      TwoEntries(Entry(Verification, HostCredit(p.usage, q.prices)),
                 Entry(HostPending(q.node), Wrap(-HostCredit(p.usage, q.prices))), AmountOf());
    }
  }

  // ---------------------------------------------------------------- the length of a hold

  predicate IsPosting(step: Step) {
    step.Accept? || step.Verify?
  }

  /** A promotion dated late enough for the credit of this posting. */
  predicate Matures(step: Step, p: Posting) {
    step.Promote? && step.at - p.receivedAt >= HoldLength(p.creditHold)
  }

  /** Only postings add holds, and each at most one: the one described above. */
  lemma HoldsGrow(s: State, step: Step)
    requires Possible(s, step)
    ensures var s' := Next(s, step);
            && |s.holds| <= |s'.holds| && (|s'.holds| > |s.holds| ==> IsPosting(step))
            && (|s'.holds| > |s.holds| ==>
                  && step.pricing.Some? && |s'.holds| == |s.holds| + 1
                  && HoldFor(s, step.posting, step.pricing.value, s'.holds[|s.holds|]))
  {
    match step
    case Accept(p, pricing) =>
      if PostAccepted(s, p, pricing).Ok? { AcceptanceAdds(s, p, pricing, Margin); }
    case Verify(p, pricing) =>
      if PostVerification(s, p, pricing).Ok? { VerificationAdds(s, p, pricing, Margin); }
    case _ =>
  }

  /** One step leaves a pending hold pending unless it is a promotion at or after its release time. */
  lemma StillPending(s: State, step: Step, h: nat)
    requires Inv(s) && Possible(s, step) && h < |s.holds|
    ensures h < |Next(s, step).holds| && Next(s, step).holds[h].availableAt == s.holds[h].availableAt
    ensures Next(s, step).holds[h].state == Pending
            <==> s.holds[h].state == Pending && !(step.Promote? && s.holds[h].availableAt <= step.at)
  {
    StepMovesHold(s, step, h);
    if step.Promote? {
      ReleaseKeepsInv(s, step.due, step.at);
      PromoteReleasesExactlyTheDue(s, step.due, step.at, h);
    }
  }

  /** None of the steps from i on, before k, is a promotion late enough. */
  predicate NoneMatures(steps: seq<Step>, p: Posting, i: nat, k: nat)
    requires k <= |steps|
  {
    forall m | i <= m < k :: !Matures(steps[m], p)
  }

  /**
   In every run, the credit a posting grants is pending in a later state exactly as long as no
   promotion since was dated at least the hold's length after the posting: as long as the posting
   asks for, and a day where it asks for nothing.
   */
  lemma {:induction false} PendingUntilMature(states: seq<State>, steps: seq<Step>, i: nat, k: nat)
    requires IsRun(states, steps) && states[0] == EMPTY && i < k < |states|
    requires IsPosting(steps[i]) && |states[i + 1].holds| > |states[i].holds|
    ensures var h := |states[i].holds|;
            && h < |states[k].holds|
            && states[k].holds[h].availableAt == steps[i].posting.receivedAt + HoldLength(steps[i].posting.creditHold)
            && (states[k].holds[h].state == Pending <==> NoneMatures(steps, steps[i].posting, i + 1, k))
    decreases k
  {
    if i + 1 == k {
      assert StepAt(states, steps, i);
      HoldsGrow(states[i], steps[i]);
    } else {
      PendingUntilMature(states, steps, i, k - 1);
      NextPending(states, steps, k - 1, |states[i].holds|);
    }
  }

  lemma NextPending(states: seq<State>, steps: seq<Step>, k: nat, h: nat)
    requires IsRun(states, steps) && states[0] == EMPTY && k < |steps| && h < |states[k].holds|
    ensures h < |states[k + 1].holds| && states[k + 1].holds[h].availableAt == states[k].holds[h].availableAt
    ensures states[k + 1].holds[h].state == Pending
            <==> states[k].holds[h].state == Pending
                 && !(steps[k].Promote? && states[k].holds[h].availableAt <= steps[k].at)
  {
    assert StepAt(states, steps, k);
    EveryRunReconciles(states, steps, k);
    StillPending(states[k], steps[k], h);
  }

  // ---------------------------------------------------------------- where a hold comes from

  /** The hold's own transaction is a posting for its job that credits its host with its amount. */
  ghost predicate Sourced(s: State, h: Hold) {
    && h.txn < |s.txns|
    && (s.txns[h.txn].kind == JobAcceptance || s.txns[h.txn].kind == VerificationCost)
    && s.txns[h.txn].ref == ForJob(h.job) && h.availableAt > s.txns[h.txn].at
    && EffectOn(HostPending(h.node))(s.txns[h.txn]) == -h.amount
  }

  lemma {:induction false} ReleaseAppends(s: State, rows: seq<nat>, now: Time)
    requires InTable(rows, |s.holds|)
    ensures s.txns <= Release(s, rows, now).txns
  {
    if rows != [] {
      ReleaseAppends(s, rows[..|rows| - 1], now);
    }
  }

  /** Posted transactions are never changed or taken back. */
  lemma LedgerOnlyGrows(s: State, step: Step)
    requires Possible(s, step)
    ensures s.txns <= Next(s, step).txns
  {
    if step.Promote? && InTable(step.due, |s.holds|) {
      ReleaseAppends(s, step.due, step.at);
    }
    if step.Create? && InTable(step.payable, |s.holds|) {
      ReserveKeepsTxns(OpenBatch(s), |s.batches|, step.payable);
    }
  }

  lemma PostedIsSourced(s: State, step: Step)
    requires Possible(s, step) && |Next(s, step).holds| > |s.holds|
    ensures Sourced(Next(s, step), Next(s, step).holds[|s.holds|])
  {
    HoldsGrow(s, step);
    var s', p, q := Next(s, step), step.posting, step.pricing.value;
    if step.Accept? {
      AcceptanceAdds(s, p, step.pricing, HostPending(q.node));
    } else {
      VerificationAdds(s, p, step.pricing, HostPending(q.node));
    }
    var t := s'.txns[|s.txns|];
    assert s'.txns == s.txns + [t];
    TxnAppended(s, t, s');
  }

  lemma StepKeepsSourced(s: State, step: Step, h: nat)
    requires Inv(s) && Possible(s, step) && h < |s.holds| && Sourced(s, s.holds[h])
    ensures h < |Next(s, step).holds| && Sourced(Next(s, step), Next(s, step).holds[h])
  {
    StepMovesHold(s, step, h);
    LedgerOnlyGrows(s, step);
  }

  /** In every run every hold was granted by a transaction for its job that credits its host with just its amount. */
  lemma {:induction false} EveryHoldIsSourced(states: seq<State>, steps: seq<Step>, k: nat, h: nat)
    requires IsRun(states, steps) && states[0] == EMPTY && k < |states| && h < |states[k].holds|
    ensures Sourced(states[k], states[k].holds[h])
  {
    if k > 0 {
      assert StepAt(states, steps, k - 1);
      HoldsGrow(states[k - 1], steps[k - 1]);
      if h < |states[k - 1].holds| {
        EveryHoldIsSourced(states, steps, k - 1, h);
        EveryRunReconciles(states, steps, k - 1);
        StepKeepsSourced(states[k - 1], steps[k - 1], h);
      } else {
        PostedIsSourced(states[k - 1], steps[k - 1]);
      }
    }
  }
}
