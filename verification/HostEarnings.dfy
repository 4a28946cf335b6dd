/**
 What hosts earn over a run: the credits of a host are exactly those of the work accepted from it, one
 for each piece; all of it is pending, payable or paid; and it stays within half a microdollar per piece
 of the unrounded price.
 */
module HostEarnings {
  import opened Sums
  import opened Charges
  import opened Jobs
  import opened JobsBilling
  import JobsCredits
  import Ledger
  import LedgerHolds
  import LedgerInvariant

  // ---------------------------------------------------------------- rounding

  ghost function Earned(): Billed -> int {
    (b: Billed) => HostCredit(b.usage, b.prices)
  }

  ghost function ExactShare(): Billed -> int {
    (b: Billed) => Exact(b.usage.completion, b.prices.host)
  }

  predicate SharesInRange(work: seq<Billed>) {
    forall i | 0 <= i < |work| :: InRange(work[i].usage.completion, work[i].prices.host)
  }

  /** n credits are never more than n half microdollars above the unrounded price nor, in range, as much below it. */
  lemma {:induction false} CreditsStayClose(work: seq<Billed>)
    ensures Sum(work, Earned()) * MILLION - Sum(work, ExactShare()) <= |work| * HALF_MILLION
    ensures SharesInRange(work) ==> -|work| * HALF_MILLION <= Sum(work, Earned()) * MILLION - Sum(work, ExactShare())
  {
    if work != [] {
      var n := |work| - 1;
      CreditsStayClose(work[..n]);
      ChargeNeverExceeds(work[n].usage.completion, work[n].prices.host);
      ChargeRoundsIffInRange(work[n].usage.completion, work[n].prices.host);
    }
  }

  // ---------------------------------------------------------------- one step

  /** The step credits work on node n: an accepted completion, or a verification whose cost is posted. */
  ghost predicate Earns(s: State, step: Step, n: NodeId) {
    Credits(s, step) && step.completion.attempt < |s.attempts| && s.attempts[step.completion.attempt].node == n
  }

  ghost predicate Credits(s: State, step: Step) {
    || JobsCredits.Accepted(s, step)
    || (step.PostOverhead? && PostVerificationOverhead(s, step.completion, step.at, step.creditHold, step.prices).Ok?)
  }

  ghost function NewWork(s: State, step: Step, n: NodeId): seq<Billed> {
    if Earns(s, step, n) && step.prices.Some? then [Billed(step.completion.usage, step.prices.value)] else []
  }

  /** The work credited to node n by the first k steps, in order. */
  ghost function WorkSoFar(states: seq<State>, steps: seq<Step>, k: nat, n: NodeId): seq<Billed>
    requires k < |states| == |steps| + 1
  {
    if k == 0 then [] else WorkSoFar(states, steps, k - 1, n) + NewWork(states[k - 1], steps[k - 1], n)
  }

  ghost function CreditOf(n: NodeId): Ledger.Hold -> int {
    (h: Ledger.Hold) => if h.node == n then h.amount else 0
  }

  ghost function OneOf(n: NodeId): Ledger.Hold -> int {
    (h: Ledger.Hold) => if h.node == n then 1 else 0
  }

  ghost function PaidTo(n: NodeId): Ledger.Hold -> int {
    (h: Ledger.Hold) => if h.node == n && h.state == Ledger.Paid then h.amount else 0
  }

  /** The holds of node n are these pieces of work. */
  ghost predicate Holds(l: Ledger.State, n: NodeId, work: seq<Billed>) {
    Sum(l.holds, CreditOf(n)) == Sum(work, Earned()) && Sum(l.holds, OneOf(n)) == |work|
  }

  lemma CreditAdds(s: State, step: Step, s': State)
    requires Possible(s, step) && s' == Next(s, step) && Credits(s, step)
    ensures step.prices.Some?
    ensures JobsCredits.Credited(s, s', step.completion, step.at, step.creditHold, step.prices.value)
  {
    if step.Complete? {
      JobsCredits.CompletionCredits(s, step.completion, step.at, step.creditHold, step.prices, Ledger.Margin);
    } else {
      JobsCredits.OverheadCredits(s, step.completion, step.at, step.creditHold, step.prices, Ledger.Margin);
    }
  }

  lemma EarningStep(s: State, step: Step, s': State, n: NodeId, work: seq<Billed>)
    requires Possible(s, step) && s' == Next(s, step) && Credits(s, step) && Holds(s.ledger, n, work)
    ensures Holds(s'.ledger, n, work + NewWork(s, step, n))
  {
    CreditAdds(s, step, s');
    var holds, h := s.ledger.holds, s'.ledger.holds[|s.ledger.holds|];
    assert s'.ledger.holds == holds + [h];
    SumAppend(holds, h, CreditOf(n));
    SumAppend(holds, h, OneOf(n));
    if h.node == n {
      SumAppend(work, Billed(step.completion.usage, step.prices.value), Earned());
    } else {
      assert work + [] == work;
    }
  }

  lemma NoNewHold(s: State, step: Step, s': State)
    requires Possible(s, step) && s' == Next(s, step) && !Credits(s, step)
    ensures |s'.ledger.holds| == |s.ledger.holds|
  {
    if step.Payouts? {
      LedgerHolds.HoldsGrow(s.ledger, step.step);
    }
  }

  lemma OtherStep(s: State, step: Step, s': State, n: NodeId, work: seq<Billed>)
    requires Possible(s, step) && s' == Next(s, step) && !Credits(s, step) && LedgerInvariant.Inv(s.ledger)
    requires Holds(s.ledger, n, work)
    ensures Holds(s'.ledger, n, work + NewWork(s, step, n))
  {
    NoNewHold(s, step, s');
    forall h | 0 <= h < |s.ledger.holds|
      ensures CreditOf(n)(s'.ledger.holds[h]) == CreditOf(n)(s.ledger.holds[h])
              && OneOf(n)(s'.ledger.holds[h]) == OneOf(n)(s.ledger.holds[h])
    {
      JobsCredits.OldHold(s, step, h);
    }
    SumSame(s.ledger.holds, s'.ledger.holds, CreditOf(n));
    SumSame(s.ledger.holds, s'.ledger.holds, OneOf(n));
    assert work + [] == work;
  }

  // ---------------------------------------------------------------- every run

  /** In every run the credits of a host are those of the work accepted from it, one for each piece. */
  lemma {:induction false} CreditsAreEarnings(states: seq<State>, steps: seq<Step>, k: nat, n: NodeId)
    requires IsRun(states, steps) && states[0] == EMPTY && k < |states|
    ensures Holds(states[k].ledger, n, WorkSoFar(states, steps, k, n))
  {
    if k == 0 {
      NothingEarned(states[0].ledger, n);
    } else {
      CreditsAreEarnings(states, steps, k - 1, n);
      NextEarnings(states, steps, k - 1, n, WorkSoFar(states, steps, k - 1, n));
    }
  }

  lemma NothingEarned(l: Ledger.State, n: NodeId)
    requires l.holds == []
    ensures Holds(l, n, [])
  {
  }

  lemma NextEarnings(states: seq<State>, steps: seq<Step>, k: nat, n: NodeId, work: seq<Billed>)
    requires IsRun(states, steps) && states[0] == EMPTY && k < |steps| && Holds(states[k].ledger, n, work)
    ensures Holds(states[k + 1].ledger, n, work + NewWork(states[k], steps[k], n))
  {
    assert StepAt(states, steps, k);
    ExactlyOnceBilling(states, steps, k);
    if Credits(states[k], steps[k]) {
      EarningStep(states[k], steps[k], states[k + 1], n, work);
    } else {
      OtherStep(states[k], steps[k], states[k + 1], n, work);
    }
  }

  lemma {:induction false} HoldsSplit(holds: seq<Ledger.Hold>, n: NodeId)
    ensures Sum(holds, CreditOf(n))
            == Sum(holds, Ledger.PendingOf(n)) + Sum(holds, Ledger.OwedTo(n)) + Sum(holds, PaidTo(n))
  {
    if holds != [] {
      HoldsSplit(holds[..|holds| - 1], n);
    }
  }

  /**
   In every run, what a host has earned is what its two accounts owe it, pending and payable, and what it
   has been paid: nothing earned is lost, and nothing is owed or paid that was not earned.
   */
  lemma EarnedIsOwedOrPaid(states: seq<State>, steps: seq<Step>, k: nat, n: NodeId)
    requires IsRun(states, steps) && states[0] == EMPTY && k < |states|
    ensures var l := states[k].ledger;
            Sum(WorkSoFar(states, steps, k, n), Earned())
            == Sum(l.holds, PaidTo(n)) - Ledger.Balance(l, Ledger.HostPending(n))
               - Ledger.Balance(l, Ledger.HostAvailable(n))
  {
    CreditsAreEarnings(states, steps, k, n);
    ExactlyOnceBilling(states, steps, k);
    HoldsSplit(states[k].ledger.holds, n);
    assert LedgerInvariant.HostReconciled(states[k].ledger, n);
  }

  /** A host is credited within half a microdollar a piece of the unrounded price; below it, with shares in range. */
  lemma HostsArePaidFairly(states: seq<State>, steps: seq<Step>, k: nat, n: NodeId)
    requires IsRun(states, steps) && states[0] == EMPTY && k < |states|
    ensures var work, holds := WorkSoFar(states, steps, k, n), states[k].ledger.holds;
            var over := Sum(holds, CreditOf(n)) * MILLION - Sum(work, ExactShare());
            && over <= Sum(holds, OneOf(n)) * HALF_MILLION
            && (SharesInRange(work) ==> -Sum(holds, OneOf(n)) * HALF_MILLION <= over)
  {
    CreditsAreEarnings(states, steps, k, n);
    CreditsStayClose(WorkSoFar(states, steps, k, n));
  }
}
