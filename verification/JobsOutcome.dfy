/**
 How long a billed job is shown as succeeded: until a failure report the store does not refuse, or
 a further standard offer, and never again after that.
 */
module JobsOutcome {
  import opened Options
  import opened Charges
  import opened Jobs
  import opened JobsBilling
  import Ledger
  import Metering

  /** The steps that take a succeeded job out of that state: neither looks at the state it overwrites. */
  predicate Unseats(s: State, step: Step, j: JobId) {
    || (step.FailWhole? && step.job == j && (step.named.None? || step.named.value < |s.attempts|))
    || (step.Offer? && step.job == j)
  }

  lemma FailureOrOffer(s: State, step: Step, j: JobId)
    requires (step.FailWhole? || step.Offer?) && j < |s.jobs| && s.jobs[j].state == Done
    ensures j < |Next(s, step).jobs|
    ensures Next(s, step).jobs[j].state == Done <==> !Unseats(s, step, j)
  {
    AnyState(Done);
  }

  lemma OtherStepsKeepDone(s: State, step: Step, j: JobId)
    requires Possible(s, step) && !step.FailWhole? && !step.Offer? && j < |s.jobs| && s.jobs[j].state == Done
    ensures j < |Next(s, step).jobs| && Next(s, step).jobs[j].state == Done
  {
  }

  /** One step leaves a succeeded job succeeded if and only if it is neither of the two. */
  lemma StaysDoneIff(s: State, step: Step, j: JobId)
    requires Possible(s, step) && j < |s.jobs| && s.jobs[j].state == Done
    ensures j < |Next(s, step).jobs|
    ensures Next(s, step).jobs[j].state == Done <==> !Unseats(s, step, j)
  {
    if step.FailWhole? || step.Offer? {
      FailureOrOffer(s, step, j);
    } else {
      OtherStepsKeepDone(s, step, j);
    }
  }

  ghost predicate Bills(s: State, step: Step, j: JobId) {
    step.Complete? && step.completion.job == j
      && CompleteJob(s, step.completion, step.at, step.creditHold, step.prices).Ok?
  }

  lemma BillingMakesDone(s: State, step: Step, s': State, j: JobId)
    requires Possible(s, step) && s' == Next(s, step) && Bills(s, step, j) && Tables(s)
    ensures j < |s'.jobs| && s'.jobs[j].state == Done && JobHasResult(s', j)
  {
    assert s.attempts[step.completion.attempt].job < |s.jobs|;
    CompletionEffects(s, step.completion, step.at, step.creditHold, step.prices.value);
    assert s'.results[|s.results|].job == j;
  }

  /** A billed job that is not shown as succeeded cannot become so again: it is never billed twice. */
  lemma StaysUndone(s: State, step: Step, j: JobId)
    requires Possible(s, step) && BilledOnce(s) && JobHasResult(s, j) && j < |s.jobs| && s.jobs[j].state != Done
    ensures j < |Next(s, step).jobs| && Next(s, step).jobs[j].state != Done
  {
    JobsStay(s, step, j);
    if Next(s, step).jobs[j].state == Done {
      BecomesDone(s, step, j);
      CompletionBills(s, step.completion, step.at, step.creditHold, step.prices, j);
      BilledIffResult(s, j);
    }
  }

  lemma JobsStay(s: State, step: Step, j: JobId)
    requires Possible(s, step) && j < |s.jobs|
    ensures j < |Next(s, step).jobs|
  {
  }

  /** Of a billed job: it is succeeded after a step if and only if it was before and the step left it so. */
  lemma BilledStep(s: State, step: Step, s': State, j: JobId)
    requires Possible(s, step) && s' == Next(s, step) && BilledOnce(s) && JobHasResult(s, j) && j < |s.jobs|
    ensures j < |s'.jobs| && JobHasResult(s', j)
    ensures s'.jobs[j].state == Done <==> s.jobs[j].state == Done && !Unseats(s, step, j)
  {
    DoneStaysBilled(s, step, j);
    if s.jobs[j].state == Done {
      StaysDoneIff(s, step, j);
    } else {
      StaysUndone(s, step, j);
    }
  }

  /** No step from p on has taken the job out of its state. */
  ghost predicate Undisturbed(states: seq<State>, steps: seq<Step>, p: nat, k: nat, j: JobId)
    requires |states| == |steps| + 1 && k < |states|
  {
    forall n | p <= n < k :: !Unseats(states[n], steps[n], j)
  }

  lemma RunStep(states: seq<State>, steps: seq<Step>, m: nat)
    requires IsRun(states, steps) && states[0] == EMPTY && m < |steps|
    ensures Possible(states[m], steps[m]) && states[m + 1] == Next(states[m], steps[m]) && BilledOnce(states[m])
            && Tables(states[m])
  {
    assert StepAt(states, steps, m);
    ExactlyOnceBilling(states, steps, m);
  }

  lemma {:induction false} ShownSince(states: seq<State>, steps: seq<Step>, p: nat, k: nat, j: JobId)
    requires IsRun(states, steps) && states[0] == EMPTY && p <= k < |states|
    requires j < |states[p].jobs| && states[p].jobs[j].state == Done && JobHasResult(states[p], j)
    ensures j < |states[k].jobs| && JobHasResult(states[k], j)
    ensures states[k].jobs[j].state == Done <==> Undisturbed(states, steps, p, k, j)
    decreases k
  {
    if p < k {
      RunStep(states, steps, k - 1);
      ShownSince(states, steps, p, k - 1, j);
      BilledStep(states[k - 1], steps[k - 1], states[k], j);
    }
  }

  lemma BilledAt(states: seq<State>, steps: seq<Step>, i: nat, j: JobId)
    requires IsRun(states, steps) && states[0] == EMPTY && i < |steps| && Bills(states[i], steps[i], j)
    ensures j < |states[i + 1].jobs| && states[i + 1].jobs[j].state == Done && JobHasResult(states[i + 1], j)
  {
    var s, step, s' := states[i], steps[i], states[i + 1];
    RunStep(states, steps, i);
    BillingMakesDone(s, step, s', j);
  }

  /**
   In every run, from the completion that billed it on, a job is shown as succeeded if and only if
   since then no failure report for it got through and no further standard attempt was offered.
   */
  lemma ShownAsSucceededIff(states: seq<State>, steps: seq<Step>, i: nat, k: nat, j: JobId)
    requires IsRun(states, steps) && states[0] == EMPTY && i < k < |states| && Bills(states[i], steps[i], j)
    ensures j < |states[k].jobs| && JobHasResult(states[k], j)
    ensures states[k].jobs[j].state == Done <==> Undisturbed(states, steps, i + 1, k, j)
  {
    BilledAt(states, steps, i, j);
    ShownSince(states, steps, i + 1, k, j);
  }

  // ---------------------------------------------------------------- an instance

  const ANY_REQUEST: Metering.Request := Metering.NO_REQUEST

  function FailingSteps(): seq<Step> {
    [NewJob(0, ANY_REQUEST), Offer(0, 0, 10, 10, 0), Accept(0, 0, 1),
      Complete(Completion(0, 0, Usage(0, 0)), 2, 0, Some(Prices(0, 0, 0))),
     FailWhole(0, Some(0), 3)]
  }

  lemma FiveSteps(s0: State, s1: State, s2: State, s3: State, s4: State, s5: State, steps: seq<Step>)
    requires |steps| == 5 && Possible(s0, steps[0]) && s1 == Next(s0, steps[0]) && Possible(s1, steps[1])
             && s2 == Next(s1, steps[1])
    requires Possible(s2, steps[2]) && s3 == Next(s2, steps[2]) && Possible(s3, steps[3]) && s4 == Next(s3, steps[3])
    requires Possible(s4, steps[4]) && s5 == Next(s4, steps[4])
    ensures IsRun([s0, s1, s2, s3, s4, s5], steps)
  {
    var states := [s0, s1, s2, s3, s4, s5];
    assert StepAt(states, steps, 0) && StepAt(states, steps, 1) && StepAt(states, steps, 2);
    assert StepAt(states, steps, 3) && StepAt(states, steps, 4);
  }

  lemma AcceptedFirst(s2: State, s3: State)
    requires s2 == Next(Next(EMPTY, FailingSteps()[0]), FailingSteps()[1]) && s3 == Next(s2, FailingSteps()[2])
    ensures |s3.jobs| == 1 && |s3.attempts| == 1 && s3.results == [] && s3.ledger == Ledger.EMPTY
    ensures s3.attempts[0].job == 0 && s3.attempts[0].status == Accepted && AcceptedInTime(s3.attempts[0])
            && s3.attempts[0].deadlineAt == 10
  {
    assert s2.jobs == [Job(0, ANY_REQUEST, Leased)];
    assert s2.attempts == [NewAttempt(0, 0, Standard, 10, 10, 0)];
  }

  /**
   A run from the empty store: the job is billed and done, and a late failure report shows it as failed,
   bill and result untouched.
   */
  lemma BilledThenFailed() returns (states: seq<State>)
    ensures IsRun(states, FailingSteps()) && states[0] == EMPTY && |states| == 6
    ensures |states[4].jobs| == |states[5].jobs| == 1
    ensures states[4].jobs[0].state == Done && Results(states[4], 0) == 1
    ensures states[5].jobs[0].state == Broken && Results(states[5], 0) == 1 && states[5].ledger == states[4].ledger
  {
    var steps := FailingSteps();
    var s1 := Next(EMPTY, steps[0]);
    var s2 := Next(s1, steps[1]);
    var s3 := Next(s2, steps[2]);
    var s4 := Next(s3, steps[3]);
    var s5 := Next(s4, steps[4]);
    states := [EMPTY, s1, s2, s3, s4, s5];
    FiveSteps(EMPTY, s1, s2, s3, s4, s5, steps);
    AcceptedFirst(s2, s3);
    FreeBill(s3, s4);
    FailedAfter(s4, s5);
  }

  lemma FreeBill(s3: State, s4: State)
    requires |s3.jobs| == 1 && |s3.attempts| == 1 && s3.results == [] && s3.ledger == Ledger.EMPTY
             && s4 == Next(s3, FailingSteps()[3])
    requires s3.attempts[0].job == 0 && s3.attempts[0].status == Accepted && AcceptedInTime(s3.attempts[0])
             && s3.attempts[0].deadlineAt == 10
    ensures |s4.jobs| == 1 && s4.jobs[0].state == Done && |s4.attempts| == 1 && s4.attempts[0].job == 0
            && Results(s4, 0) == 1
  {
    var c := Completion(0, 0, Usage(0, 0));
    FirstBill(s3, c, 2, 0, Prices(0, 0, 0));
    CompletionEffects(s3, c, 2, 0, Prices(0, 0, 0));
    CompletionBills(s3, c, 2, 0, Some(Prices(0, 0, 0)), 0);
  }

  lemma FailedAfter(s4: State, s5: State)
    requires |s4.jobs| == 1 && s4.jobs[0].state == Done && |s4.attempts| == 1 && s4.attempts[0].job == 0
             && s5 == Next(s4, FailingSteps()[4])
    ensures |s5.jobs| == 1 && s5.jobs[0].state == Broken && s5.results == s4.results && s5.ledger == s4.ledger
  {
    AnyState(s4.jobs[0].state);
  }
}
