/**
 Whom a completion pays: the host of the attempt that was completed, and nobody else; the customer
 whose job it is, and no other; and every credit there is belongs to the attempt it names.
 */
module JobsCredits {
  import opened Options
  import opened Charges
  import opened Jobs
  import opened JobsBilling
  import opened LedgerHolds
  import Ledger
  import LedgerInvariant
  import LedgerRuns

  /** What an accepted completion moves on each account. */
  function CompletedShare(s: State, c: Completion, prices: Prices, a: Ledger.Account): int
    requires c.attempt < |s.attempts| && c.job < |s.jobs|
  {
    if a == Ledger.CustomerUsage(s.jobs[c.job].org) then CustomerCharge(c.usage, prices)
    else if a == Ledger.HostPending(s.attempts[c.attempt].node) then -HostCredit(c.usage, prices)
    else if a == Ledger.Margin then HostCredit(c.usage, prices) - CustomerCharge(c.usage, prices)
    else 0
  }

  /** What a posted verification moves on each account. */
  function CheckedShare(s: State, c: Completion, prices: Prices, a: Ledger.Account): int
    requires c.attempt < |s.attempts|
  {
    if a == Ledger.Verification then HostCredit(c.usage, prices)
    else if a == Ledger.HostPending(s.attempts[c.attempt].node) then -HostCredit(c.usage, prices)
    else 0
  }

  /** One pending hold more: for this attempt, its host and its job, until the hold's length has passed. */
  ghost predicate Credited(s: State, s': State, c: Completion, at: Time, creditHold: int, prices: Prices) {
    && Names(s, c.job, c.attempt)
    && |s'.ledger.holds| == |s.ledger.holds| + 1 && s.ledger.holds <= s'.ledger.holds
    && s'.ledger.holds[|s.ledger.holds|]
       == Ledger.Hold(s.attempts[c.attempt].node, c.job, c.attempt, |s.ledger.txns|, HostCredit(c.usage, prices),
                      Ledger.Pending, at + HoldLength(creditHold), None)
  }

  /**
   An accepted completion credits the host of its attempt and charges the customer of its job, the
   margin takes the difference, and every other account stays as it was.
   */
  lemma CompletionCredits(s: State, c: Completion, at: Time, hold: int, prices: Option<Prices>, a: Ledger.Account)
    requires CompleteJob(s, c, at, hold, prices).Ok?
    ensures prices.Some? && Names(s, c.job, c.attempt) && c.job < |s.jobs|
    ensures var s' := CompleteJob(s, c, at, hold, prices).value;
            && Credited(s, s', c, at, hold, prices.value)
            && Ledger.Balance(s'.ledger, a) == Ledger.Balance(s.ledger, a) + CompletedShare(s, c, prices.value, a)
  {
    AcceptanceAdds(s.ledger, PostingFor(c, at, hold), PricingFor(s, c.job, c.attempt, prices), a);
  }

  /**
   A verification's cost is posted exactly when it names an attempt of its job, there is a price, and no
   credit yet.
   */
  lemma OverheadPostedIff(s: State, c: Completion, at: Time, hold: int, prices: Option<Prices>)
    ensures PostVerificationOverhead(s, c, at, hold, prices).Ok? <==>
            (&& Names(s, c.job, c.attempt) && c.job < |s.jobs|
             && prices.Some? && HostCredit(c.usage, prices.value) >= 0
             && forall h | 0 <= h < |s.ledger.holds| :: s.ledger.holds[h].attempt != c.attempt)
  {
    VerificationPostedIff(s.ledger, PostingFor(c, at, hold), PricingFor(s, c.job, c.attempt, prices));
  }

  /**
   It credits the host of the verification attempt at the platform's cost, moves nothing else and changes no
   other row.
   */
  lemma OverheadCredits(s: State, c: Completion, at: Time, hold: int, prices: Option<Prices>, a: Ledger.Account)
    requires PostVerificationOverhead(s, c, at, hold, prices).Ok?
    ensures prices.Some? && Names(s, c.job, c.attempt)
    ensures var s' := PostVerificationOverhead(s, c, at, hold, prices).value;
            && s' == s.(ledger := s'.ledger) && Credited(s, s', c, at, hold, prices.value)
            && Ledger.Balance(s'.ledger, a) == Ledger.Balance(s.ledger, a) + CheckedShare(s, c, prices.value, a)
  {
    VerificationAdds(s.ledger, PostingFor(c, at, hold), PricingFor(s, c.job, c.attempt, prices), a);
  }

  // ---------------------------------------------------------------- every run

  /** The hold names an attempt there is, of its job and on its host. */
  ghost predicate NamesItsAttempt(s: State, h: Ledger.Hold) {
    h.attempt < |s.attempts| && s.attempts[h.attempt].job == h.job && s.attempts[h.attempt].node == h.node
  }

  lemma StepKeepsNames(s: State, step: Step, h: Ledger.Hold)
    requires Possible(s, step) && NamesItsAttempt(s, h)
    ensures NamesItsAttempt(Next(s, step), h)
  {
    StepRow(s, step, h.attempt);
  }

  /** A hold there was is the same but for its state and batch. */
  lemma OldHold(s: State, step: Step, h: nat)
    requires Possible(s, step) && LedgerInvariant.Inv(s.ledger) && h < |s.ledger.holds|
    ensures h < |Next(s, step).ledger.holds|
    ensures var h' := Next(s, step).ledger.holds[h]; h' == s.ledger.holds[h].(state := h'.state, batch := h'.batch)
  {
    if step.Payouts? {
      LedgerRuns.StepMovesHold(s.ledger, step.step, h);
    } else {
      HoldKept(s, step, h);
    }
  }

  lemma NewHoldNames(s: State, step: Step)
    requires Possible(s, step) && |Next(s, step).ledger.holds| > |s.ledger.holds|
    ensures |Next(s, step).ledger.holds| == |s.ledger.holds| + 1
    ensures NamesItsAttempt(s, Next(s, step).ledger.holds[|s.ledger.holds|])
  {
    if step.Complete? {
      CompletionCredits(s, step.completion, step.at, step.creditHold, step.prices, Ledger.Margin);
    } else if step.PostOverhead? {
      OverheadCredits(s, step.completion, step.at, step.creditHold, step.prices, Ledger.Margin);
    } else if step.Payouts? {
      HoldsGrow(s.ledger, step.step);
    }
  }

  /** In every run every credit names an attempt, and is owed to that attempt's host for that attempt's job. */
  lemma {:induction false} EveryHoldNamesItsAttempt(states: seq<State>, steps: seq<Step>, k: nat, h: nat)
    requires IsRun(states, steps) && states[0] == EMPTY && k < |states| && h < |states[k].ledger.holds|
    ensures NamesItsAttempt(states[k], states[k].ledger.holds[h])
  {
    if k > 0 {
      assert StepAt(states, steps, k - 1);
      if h < |states[k - 1].ledger.holds| {
        EveryHoldNamesItsAttempt(states, steps, k - 1, h);
        ExactlyOnceBilling(states, steps, k - 1);
        OldHold(states[k - 1], steps[k - 1], h);
      } else {
        NewHoldNames(states[k - 1], steps[k - 1]);
      }
      StepKeepsNames(states[k - 1], steps[k - 1], states[k].ledger.holds[h]);
    }
  }

  /** The completion in this step is accepted. */
  ghost predicate Accepted(s: State, step: Step) {
    step.Complete? && CompleteJob(s, step.completion, step.at, step.creditHold, step.prices).Ok?
  }

  /** A promotion dated late enough for a credit received at that time. */
  predicate Ripens(step: Step, receivedAt: Time, creditHold: int) {
    step.Payouts? && step.step.Promote? && step.step.at - receivedAt >= HoldLength(creditHold)
  }

  predicate NoneRipens(steps: seq<Step>, receivedAt: Time, creditHold: int, i: nat, k: nat)
    requires k <= |steps|
  {
    forall m | i <= m < k :: !Ripens(steps[m], receivedAt, creditHold)
  }

  lemma StaysUnripe(s: State, step: Step, h: nat)
    requires Possible(s, step) && LedgerInvariant.Inv(s.ledger) && h < |s.ledger.holds|
    ensures h < |Next(s, step).ledger.holds|
    ensures Next(s, step).ledger.holds[h].availableAt == s.ledger.holds[h].availableAt
    ensures Next(s, step).ledger.holds[h].state == Ledger.Pending
            <==> (&& s.ledger.holds[h].state == Ledger.Pending
                  && !(step.Payouts? && step.step.Promote? && s.ledger.holds[h].availableAt <= step.step.at))
  {
    if step.Payouts? {
      StillPending(s.ledger, step.step, h);
    } else {
      HoldKept(s, step, h);
    }
  }

  /** Outside releases and payouts no hold that is there changes. */
  lemma HoldKept(s: State, step: Step, h: nat)
    requires Possible(s, step) && !step.Payouts? && h < |s.ledger.holds|
    ensures h < |Next(s, step).ledger.holds| && Next(s, step).ledger.holds[h] == s.ledger.holds[h]
  {
    if step.Complete? {
      if CompleteJob(s, step.completion, step.at, step.creditHold, step.prices).Ok? {
        CompletionCredits(s, step.completion, step.at, step.creditHold, step.prices, Ledger.Margin);
      }
    } else if step.PostOverhead? {
      if PostVerificationOverhead(s, step.completion, step.at, step.creditHold, step.prices).Ok? {
        OverheadCredits(s, step.completion, step.at, step.creditHold, step.prices, Ledger.Margin);
      }
    }
  }

  /**
   In every run, the credit of an accepted completion is pending exactly until the first promotion
   dated at least the hold's length after the completion was received.
   */
  lemma {:induction false} CreditIsHeld(states: seq<State>, steps: seq<Step>, i: nat, k: nat)
    requires IsRun(states, steps) && states[0] == EMPTY && i < k < |states| && Accepted(states[i], steps[i])
    ensures var h := |states[i].ledger.holds|;
            && h < |states[k].ledger.holds|
            && states[k].ledger.holds[h].availableAt == steps[i].at + HoldLength(steps[i].creditHold)
            && (states[k].ledger.holds[h].state == Ledger.Pending
                <==> NoneRipens(steps, steps[i].at, steps[i].creditHold, i + 1, k))
    decreases k
  {
    if i + 1 == k {
      assert StepAt(states, steps, i);
      FreshCredit(states[i], steps[i]);
    } else {
      CreditIsHeld(states, steps, i, k - 1);
      NextHold(states, steps, k - 1, |states[i].ledger.holds|);
    }
  }

  lemma FreshCredit(s: State, step: Step)
    requires Accepted(s, step)
    ensures var h, s' := |s.ledger.holds|, Next(s, step);
            && h < |s'.ledger.holds| && s'.ledger.holds[h].state == Ledger.Pending
            && s'.ledger.holds[h].availableAt == step.at + HoldLength(step.creditHold)
  {
    CompletionCredits(s, step.completion, step.at, step.creditHold, step.prices, Ledger.Margin);
  }

  lemma NextHold(states: seq<State>, steps: seq<Step>, k: nat, h: nat)
    requires IsRun(states, steps) && states[0] == EMPTY && k < |steps| && h < |states[k].ledger.holds|
    ensures h < |states[k + 1].ledger.holds|
    ensures var before, after := states[k].ledger.holds[h], states[k + 1].ledger.holds[h];
            && after.availableAt == before.availableAt
            && (after.state == Ledger.Pending <==>
                  && before.state == Ledger.Pending
                  && !(steps[k].Payouts? && steps[k].step.Promote? && before.availableAt <= steps[k].step.at))
  {
    assert StepAt(states, steps, k);
    ExactlyOnceBilling(states, steps, k);
    StaysUnripe(states[k], steps[k], h);
  }
}
