/**
 What customers are charged over a run: a customer's balance is exactly the sum of the charges of the
 accepted results of their jobs, and so stays within a microdollar per result of the unrounded price.
 */
module CustomerBills {
  import opened Options
  import opened Sums
  import opened Charges
  import opened Jobs
  import opened JobsBilling
  import opened JobsOutcome
  import Ledger
  import LedgerEffects
  import LedgerRuns

  // ---------------------------------------------------------------- only acceptances touch customers

  predicate CustomerFree(entries: seq<Ledger.Entry>) {
    forall k | 0 <= k < |entries| :: !entries[k].account.CustomerUsage?
  }

  /** No transaction but an acceptance has a customer's account in it, and paid items name payouts. */
  ghost predicate Clean(s: Ledger.State) {
    && (forall t | 0 <= t < |s.txns| && s.txns[t].kind != Ledger.JobAcceptance :: CustomerFree(s.txns[t].entries))
    && (forall i | 0 <= i < |s.items| && s.items[i].txn.Some? ::
          s.items[i].txn.value < |s.txns| && s.txns[s.items[i].txn.value].kind == Ledger.HostPayout)
  }

  ghost function Charge(s: Ledger.State, org: OrgId): int {
    Ledger.Balance(s, Ledger.CustomerUsage(org))
  }

  lemma FreeOfCharge(s: Ledger.State, t: Ledger.Txn, s': Ledger.State, org: OrgId)
    requires s'.txns == s.txns + [t] && CustomerFree(t.entries)
    ensures Charge(s', org) == Charge(s, org)
  {
    SumZero(t.entries, Ledger.AmountOn(Ledger.CustomerUsage(org)));
    SumAppend(s.txns, t, Ledger.EffectOn(Ledger.CustomerUsage(org)));
  }

  /** Appending a transaction without customers, to items that keep or gain only payout names. */
  lemma AppendKeepsClean(s: Ledger.State, t: Ledger.Txn, s': Ledger.State)
    requires Clean(s) && s'.txns == s.txns + [t] && CustomerFree(t.entries) && t.kind != Ledger.JobAcceptance
    requires forall i | 0 <= i < |s'.items| && s'.items[i].txn.Some? ::
               (s'.items[i].txn.value == |s.txns| && t.kind == Ledger.HostPayout)
               || (s'.items[i].txn.value < |s.txns| && s.txns[s'.items[i].txn.value].kind == Ledger.HostPayout)
    ensures Clean(s')
  {
  }

  lemma ReleaseOneClean(s: Ledger.State, h: nat, now: Time, org: OrgId)
    requires Clean(s) && h < |s.holds|
    ensures Clean(Ledger.ReleaseOne(s, h, now)) && Charge(Ledger.ReleaseOne(s, h, now), org) == Charge(s, org)
  {
    var s' := Ledger.ReleaseOne(s, h, now);
    var t := s'.txns[|s.txns|];
    FreeOfCharge(s, t, s', org);
    AppendKeepsClean(s, t, s');
  }

  lemma {:induction false} ReleaseClean(s: Ledger.State, rows: seq<nat>, now: Time, org: OrgId)
    requires Clean(s) && Ledger.InTable(rows, |s.holds|)
    ensures Clean(Ledger.Release(s, rows, now)) && Charge(Ledger.Release(s, rows, now), org) == Charge(s, org)
  {
    if rows != [] {
      var n := |rows| - 1;
      ReleaseClean(s, rows[..n], now, org);
      ReleaseOneClean(Ledger.Release(s, rows[..n], now), rows[n], now, org);
    }
  }

  lemma {:induction false} ReserveClean(s: Ledger.State, b: nat, rows: seq<nat>)
    requires Clean(s) && Ledger.InTable(rows, |s.holds|)
    ensures Clean(Ledger.Reserve(s, b, rows))
  {
    if rows != [] {
      var n := |rows| - 1;
      ReserveClean(s, b, rows[..n]);
      var mid := Ledger.Reserve(s, b, rows[..n]);
      var s' := Ledger.ReserveOne(mid, b, rows[n]);
      forall i | 0 <= i < |s'.items| && s'.items[i].txn.Some?
        ensures s'.items[i].txn.value < |s'.txns| && s'.txns[s'.items[i].txn.value].kind == Ledger.HostPayout
      {
        assert s'.items[i] == mid.items[i];
      }
    }
  }

  lemma CreateClean(s: Ledger.State, rows: seq<nat>, org: OrgId)
    requires Clean(s) && Ledger.InTable(rows, |s.holds|) && Ledger.CreateBatch(s, rows).Ok?
    ensures Clean(Ledger.CreateBatch(s, rows).value) && Charge(Ledger.CreateBatch(s, rows).value, org) == Charge(s, org)
  {
    ReserveClean(Ledger.OpenBatch(s), |s.batches|, rows);
    Ledger.ReserveKeepsTxns(Ledger.OpenBatch(s), |s.batches|, rows);
  }

  lemma {:induction false} DebitsAreFree(items: seq<Ledger.Item>, b: nat)
    ensures CustomerFree(Ledger.PayoutDebits(items, b))
  {
    if items != [] {
      DebitsAreFree(items[..|items| - 1], b);
    }
  }

  lemma ConfirmClean(s: Ledger.State, b: nat, rows: seq<Ledger.Row>, now: Time, org: OrgId)
    requires Clean(s) && Ledger.Confirm(s, b, rows, now).Ok?
    ensures Clean(Ledger.Confirm(s, b, rows, now).value)
            && Charge(Ledger.Confirm(s, b, rows, now).value, org) == Charge(s, org)
  {
    var s' := Ledger.Settled(s, b, now);
    var t := s'.txns[|s.txns|];
    DebitsAreFree(s.items, b);
    FreeOfCharge(s, t, s', org);
    AppendKeepsClean(s, t, s');
  }

  lemma VoidClean(s: Ledger.State, b: nat, now: Time, org: OrgId)
    requires Clean(s) && Ledger.VoidBatch(s, b, now).Ok?
    ensures Clean(Ledger.VoidBatch(s, b, now).value) && Charge(Ledger.VoidBatch(s, b, now).value, org) == Charge(s, org)
  {
    var s' := Ledger.VoidBatch(s, b, now).value;
    if s'.txns != s.txns {
      var t := s'.txns[|s.txns|];
      assert CustomerFree(t.entries);
      FreeOfCharge(s, t, s', org);
      AppendKeepsClean(s, t, s');
    }
  }

  lemma VerifyClean(s: Ledger.State, p: Ledger.Posting, pricing: Option<Ledger.Pricing>, org: OrgId)
    requires Clean(s) && Ledger.PostVerification(s, p, pricing).Ok?
    ensures Clean(Ledger.PostVerification(s, p, pricing).value)
            && Charge(Ledger.PostVerification(s, p, pricing).value, org) == Charge(s, org)
  {
    var s' := Ledger.PostVerification(s, p, pricing).value;
    var t := s'.txns[|s.txns|];
    FreeOfCharge(s, t, s', org);
    AppendKeepsClean(s, t, s');
  }

  /** No ledger step but an acceptance charges a customer. */
  lemma OtherStepsAreFree(s: Ledger.State, step: LedgerRuns.Step, org: OrgId)
    requires LedgerRuns.Possible(s, step) && !step.Accept? && Clean(s)
    ensures Clean(LedgerRuns.Next(s, step)) && Charge(LedgerRuns.Next(s, step), org) == Charge(s, org)
  {
    if step.Verify? {
      if Ledger.PostVerification(s, step.posting, step.pricing).Ok? { VerifyClean(s, step.posting, step.pricing, org); }
    } else if step.Promote? {
      if Ledger.InTable(step.due, |s.holds|) { ReleaseClean(s, step.due, step.at, org); }
    } else if step.Create? {
      if Ledger.InTable(step.payable, |s.holds|)
         && Ledger.CreateBatch(s, step.payable).Ok? { CreateClean(s, step.payable, org); }
    } else if step.ConfirmFile? {
      if Ledger.Confirm(s, step.batch, step.rows, step.at).Ok? { ConfirmClean(s, step.batch, step.rows, step.at, org); }
    } else if step.VoidPayout? {
      if Ledger.VoidBatch(s, step.batch, step.at).Ok? { VoidClean(s, step.batch, step.at, org); }
    }
  }

  /** An acceptance charges its own customer and no other. */
  lemma AcceptanceCharges(s: Ledger.State, p: Ledger.Posting, q: Ledger.Pricing, org: OrgId)
    requires Clean(s) && p.overhead == 0 && Ledger.PostAccepted(s, p, Some(q)).Ok?
    ensures Clean(Ledger.PostAccepted(s, p, Some(q)).value)
    ensures Charge(Ledger.PostAccepted(s, p, Some(q)).value, org)
            == Charge(s, org) + if q.org == org then CustomerCharge(p.usage, q.prices) else 0
  {
    LedgerEffects.AcceptanceMoves(s, p, q);
    if q.org != org {
      var s' := Ledger.PostAccepted(s, p, Some(q)).value;
      var t := s'.txns[|s.txns|];
      SumZero(t.entries, Ledger.AmountOn(Ledger.CustomerUsage(org)));
      SumAppend(s.txns, t, Ledger.EffectOn(Ledger.CustomerUsage(org)));
    }
  }

  // ---------------------------------------------------------------- over a run

  /** The step bills a job of this customer. */
  ghost predicate BillsCustomer(s: State, step: Step, org: OrgId) {
    step.Complete? && Bills(s, step, step.completion.job) && step.completion.job < |s.jobs|
      && s.jobs[step.completion.job].org == org
  }

  ghost function BillOf(step: Step): Billed
    requires step.Complete? && step.prices.Some?
  {
    Billed(step.completion.usage, step.prices.value)
  }

  /** One bill for each accepted completion of the customer's jobs, in order. */
  ghost function BillsSoFar(states: seq<State>, steps: seq<Step>, k: nat, org: OrgId): seq<Billed>
    requires k < |states| == |steps| + 1
  {
    if k == 0 then []
    else BillsSoFar(states, steps, k - 1, org) + NewBill(states[k - 1], steps[k - 1], org)
  }

  ghost function NewBill(s: State, step: Step, org: OrgId): seq<Billed> {
    if BillsCustomer(s, step, org) then [BillOf(step)] else []
  }

  ghost function ResultFor(jobs: seq<Job>, org: OrgId): ResultRow -> int {
    (r: ResultRow) => if r.job < |jobs| && jobs[r.job].org == org then 1 else 0
  }

  /** How many accepted results the customer's jobs have. */
  ghost function ResultsFor(s: State, org: OrgId): int {
    Sum(s.results, ResultFor(s.jobs, org))
  }

  lemma BillingStep(s: State, step: Step, s': State, org: OrgId)
    requires Possible(s, step) && s' == Next(s, step) && Tables(s) && Clean(s.ledger) && step.Complete?
             && Bills(s, step, step.completion.job)
    ensures Clean(s'.ledger) && step.prices.Some?
    ensures Charge(s'.ledger, org)
            == Charge(s.ledger, org) + if BillsCustomer(s, step, org) then Charged()(BillOf(step)) else 0
  {
    var c := step.completion;
    assert s.attempts[c.attempt].job < |s.jobs|;
    var q := PricingFor(s, c.job, c.attempt, step.prices);
    AcceptanceCharges(s.ledger, PostingFor(c, step.at, step.creditHold), q.value, org);
  }

  lemma QuietMoney(s: State, step: Step, s': State, org: OrgId)
    requires Possible(s, step) && s' == Next(s, step) && Clean(s.ledger)
             && !(step.Complete? && Bills(s, step, step.completion.job))
    ensures Clean(s'.ledger) && Charge(s'.ledger, org) == Charge(s.ledger, org)
  {
    var moved := LedgerMoves(s, step);
    if moved.Some? {
      OtherStepsAreFree(s.ledger, moved.value, org);
    }
  }

  lemma SameResults(s: State, step: Step, s': State, org: OrgId)
    requires Possible(s, step) && s' == Next(s, step) && Tables(s)
    ensures Sum(s.results, ResultFor(s'.jobs, org)) == ResultsFor(s, org)
  {
    StepKeepsRequests(s, step);
    forall r | 0 <= r < |s.results|
      ensures ResultFor(s'.jobs, org)(s.results[r]) == ResultFor(s.jobs, org)(s.results[r])
    {
      assert Names(s, s.results[r].job, s.results[r].attempt);
      assert s.attempts[s.results[r].attempt].job < |s.jobs|;
    }
    SumEqual(s.results, ResultFor(s'.jobs, org), ResultFor(s.jobs, org));
  }

  /** A billing step appends one result, for the job it names. */
  lemma ResultAppended(s: State, step: Step, s': State)
    requires Possible(s, step) && s' == Next(s, step) && Tables(s) && step.Complete?
             && Bills(s, step, step.completion.job)
    ensures step.completion.job < |s.jobs| && |s'.jobs| == |s.jobs|
    ensures s'.results == s.results + [ResultRow(step.completion.job, step.completion.attempt, step.completion.usage)]
    ensures s'.jobs[step.completion.job].org == s.jobs[step.completion.job].org
  {
    var c := step.completion;
    assert s.attempts[c.attempt].job < |s.jobs|;
    CompletionEffects(s, c, step.at, step.creditHold, step.prices.value);
  }

  lemma ResultStep(s: State, step: Step, s': State, org: OrgId)
    requires Possible(s, step) && s' == Next(s, step) && Tables(s)
    ensures ResultsFor(s', org) == ResultsFor(s, org) + if BillsCustomer(s, step, org) then 1 else 0
  {
    SameResults(s, step, s', org);
    if step.Complete? && Bills(s, step, step.completion.job) {
      ResultAppended(s, step, s');
      SumAppend(s.results, ResultRow(step.completion.job, step.completion.attempt, step.completion.usage),
        ResultFor(s'.jobs, org));
    } else {
      QuietResults(s, step);
    }
  }

  lemma BillStep(s: State, step: Step, s': State, org: OrgId, bills: seq<Billed>)
    requires Possible(s, step) && s' == Next(s, step) && Tables(s) && Clean(s.ledger)
    requires Charge(s.ledger, org) == Sum(bills, Charged()) && |bills| == ResultsFor(s, org)
    ensures Clean(s'.ledger)
    ensures Charge(s'.ledger, org) == Sum(bills + NewBill(s, step, org), Charged())
    ensures |bills + NewBill(s, step, org)| == ResultsFor(s', org)
  {
    ResultStep(s, step, s', org);
    assert bills + [] == bills;
    if step.Complete? && Bills(s, step, step.completion.job) {
      BillingStep(s, step, s', org);
      SumAppend(bills, BillOf(step), Charged());
    } else {
      QuietMoney(s, step, s', org);
    }
  }

  /** In every run a customer's balance is the sum of their bills, one for each accepted result of their jobs. */
  lemma {:induction false} BalanceIsBills(states: seq<State>, steps: seq<Step>, k: nat, org: OrgId)
    requires IsRun(states, steps) && states[0] == EMPTY && k < |states|
    ensures Clean(states[k].ledger)
    ensures Charge(states[k].ledger, org) == Sum(BillsSoFar(states, steps, k, org), Charged())
    ensures |BillsSoFar(states, steps, k, org)| == ResultsFor(states[k], org)
  {
    if k == 0 {
      NothingCharged(states[0], org);
    } else {
      BalanceIsBills(states, steps, k - 1, org);
      RunStep(states, steps, k - 1);
      BillStep(states[k - 1], steps[k - 1], states[k], org, BillsSoFar(states, steps, k - 1, org));
    }
  }

  lemma NothingCharged(s: State, org: OrgId)
    requires s.ledger.txns == [] && s.ledger.items == [] && s.results == []
    ensures Clean(s.ledger) && Charge(s.ledger, org) == 0 && ResultsFor(s, org) == 0
  {
  }

  /**
   A customer is never charged more than one microdollar per accepted result above the unrounded price
   and, while prices are in range, never less than that below it.
   */
  lemma CustomersArePricedFairly(states: seq<State>, steps: seq<Step>, k: nat, org: OrgId)
    requires IsRun(states, steps) && states[0] == EMPTY && k < |states|
    ensures var exact, n := Sum(BillsSoFar(states, steps, k, org), ExactPrice()), ResultsFor(states[k], org);
            && Charge(states[k].ledger, org) * MILLION - exact <= n * MILLION
            && (AllInRange(BillsSoFar(states, steps, k, org)) ==>
               -n * MILLION <= Charge(states[k].ledger, org) * MILLION - exact)
  {
    BalanceIsBills(states, steps, k, org);
    ChargesStayClose(BillsSoFar(states, steps, k, org));
  }
}
