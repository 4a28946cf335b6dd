/**
 Each attempt and each job seen for itself: which steps bring it into each of its states, which take
 it out, and what it looks like over a whole run. The operations are told state by state here, not
 operation by operation.
 */
module JobsLives {
  import opened Options
  import opened Jobs
  import opened JobsBilling
  import opened DispatchExclusive
  import Metering

  // ---------------------------------------------------------------- steps, seen from one attempt

  /** The completion in this step is accepted. */
  ghost predicate Accepts(s: State, step: Step) {
    step.Complete? && CompleteJob(s, step.completion, step.at, step.creditHold, step.prices).Ok?
  }

  /** The step names attempt a and its job. */
  predicate Addresses(s: State, step: Step, a: AttemptId)
    requires a < |s.attempts|
  {
    match step
    case Accept(j, b, _) => b == a && j == s.attempts[a].job
    case Start(j, b) => b == a && j == s.attempts[a].job
    case FailOne(j, b, _) => b == a && j == s.attempts[a].job
    case FailWhole(j, b, _) => b == Some(a) && j == s.attempts[a].job
    case Verify(j, b, _) => b == a && j == s.attempts[a].job
    case VerifyFailed(j, b, _) => b == a && j == s.attempts[a].job
    case _ => false
  }

  /** Taken up while the lease lasts and within two seconds of the offer. */
  predicate TakesUp(s: State, step: Step, a: AttemptId)
    requires a < |s.attempts|
  {
    && step.Accept? && Addresses(s, step, a) && s.attempts[a].status == Offered
    && step.at <= s.attempts[a].leaseExpiresAt && step.at - s.attempts[a].createdAt <= 2_000_000_000
  }

  predicate SetsOff(s: State, step: Step, a: AttemptId)
    requires a < |s.attempts|
  {
    step.Start? && Addresses(s, step, a) && s.attempts[a].status == Accepted
  }

  ghost predicate Succeeds(s: State, step: Step, a: AttemptId) {
    Accepts(s, step) && step.completion.attempt == a
  }

  predicate Confirms(s: State, step: Step, a: AttemptId)
    requires a < |s.attempts|
  {
    step.Verify? && Addresses(s, step, a) && (s.attempts[a].status == Accepted || s.attempts[a].status == Running)
  }

  predicate LapsesAt(s: State, step: Step, a: AttemptId)
    requires a < |s.attempts|
  {
    step.Expire? && s.attempts[a].status == Offered && s.attempts[a].leaseExpiresAt <= step.now
  }

  predicate CalledOff(s: State, step: Step, a: AttemptId)
    requires a < |s.attempts|
  {
    step.OpCancel? && step.job == s.attempts[a].job && Active(s.attempts[a].status)
  }

  /** Failing the whole job fails the named attempt in any state, the other two reports only an open one. */
  predicate Fails(s: State, step: Step, a: AttemptId)
    requires a < |s.attempts|
  {
    && Addresses(s, step, a)
    && (step.FailWhole? || ((step.FailOne? || step.VerifyFailed?) && Active(s.attempts[a].status)))
  }

  /** The step ends attempt a, which is open before it. */
  ghost predicate Ends(s: State, step: Step, a: AttemptId)
    requires a < |s.attempts|
  {
    Succeeds(s, step, a) || Confirms(s, step, a) || LapsesAt(s, step, a) || CalledOff(s, step, a) || Fails(s, step, a)
  }

  // ---------------------------------------------------------------- the life of an attempt

  /** Status by status, what brings an attempt there and what leaves it there. */
  ghost predicate StatusAfter(s: State, step: Step, a: AttemptId, before: Status, after: Status)
    requires a < |s.attempts|
  {
    && (after == Offered <==> before == Offered && !TakesUp(s, step, a) && !Ends(s, step, a))
    && (after == Accepted <==>
          TakesUp(s, step, a) || (before == Accepted && !SetsOff(s, step, a) && !Ends(s, step, a)))
    && (after == Running <==> SetsOff(s, step, a) || (before == Running && !Ends(s, step, a)))
    && (after == Succeeded <==> Succeeds(s, step, a) || (before == Succeeded && !Fails(s, step, a)))
    && (after == Verified <==> Confirms(s, step, a) || (before == Verified && !Fails(s, step, a)))
    && (after == Expired <==> LapsesAt(s, step, a) || (before == Expired && !Fails(s, step, a)))
    && (after == Cancelled <==> CalledOff(s, step, a) || (before == Cancelled && !Fails(s, step, a)))
    && (after == Failed <==> Fails(s, step, a) || before == Failed)
  }

  /** When an attempt was taken up and when it was finished. */
  ghost predicate TimesAfter(s: State, step: Step, a: AttemptId, before: Attempt, after: Attempt)
    requires a < |s.attempts|
  {
    && after.acceptedAt == (if TakesUp(s, step, a) then Some(step.at) else before.acceptedAt)
    && after.finishedAt == (if CalledOff(s, step, a) && before.finishedAt.Some? then before.finishedAt
                            else if Ends(s, step, a) then Some(TimeOf(step)) else before.finishedAt)
  }

  function TimeOf(step: Step): Time {
    match step
    case Complete(_, at, _, _) => at
    case FailOne(_, _, at) => at
    case FailWhole(_, _, at) => at
    case Verify(_, _, at) => at
    case VerifyFailed(_, _, at) => at
    case OpCancel(_, at) => at
    case Expire(now) => now
    case _ => 0
  }

  /** Every step does to every attempt just what the table says, and nothing to what identifies it. */
  lemma AttemptAfterStep(s: State, step: Step, a: AttemptId)
    requires Possible(s, step) && a < |s.attempts|
    ensures a < |Next(s, step).attempts|
    ensures var row, row' := s.attempts[a], Next(s, step).attempts[a];
            SameAttempt(row, row') && StatusAfter(s, step, a, row.status, row'.status)
              && TimesAfter(s, step, a, row, row')
  {
    StepRow(s, step, a);
    if step.Complete? {
      CompletedAttempt(s, step, a);
    } else if step.Accept? || step.Start? || step.Verify? {
      ForwardAttempt(s, step, a);
    } else if step.FailOne? || step.FailWhole? || step.VerifyFailed? {
      FailedAttempt(s, step, a);
    } else if step.Expire? || step.OpCancel? {
      EndedAttempt(s, step, a);
    } else {
      UntouchedAttempt(s, step, a);
    }
  }

  /** The steps that update attempt rows. */
  predicate Touches(step: Step) {
    || step.Complete? || step.Accept? || step.Start? || step.Verify? || step.FailOne? || step.FailWhole?
    || step.VerifyFailed? || step.Expire? || step.OpCancel?
  }

  lemma CompletedAttempt(s: State, step: Step, a: AttemptId)
    requires step.Complete? && a < |s.attempts|
    ensures a < |Next(s, step).attempts|
    ensures var row, row' := s.attempts[a], Next(s, step).attempts[a];
            StatusAfter(s, step, a, row.status, row'.status) && TimesAfter(s, step, a, row, row')
  {
  }

  lemma ForwardAttempt(s: State, step: Step, a: AttemptId)
    requires (step.Accept? || step.Start? || step.Verify?) && a < |s.attempts|
    ensures a < |Next(s, step).attempts|
    ensures var row, row' := s.attempts[a], Next(s, step).attempts[a];
            StatusAfter(s, step, a, row.status, row'.status) && TimesAfter(s, step, a, row, row')
  {
  }

  lemma FailedAttempt(s: State, step: Step, a: AttemptId)
    requires (step.FailOne? || step.FailWhole? || step.VerifyFailed?) && a < |s.attempts|
    ensures a < |Next(s, step).attempts|
    ensures var row, row' := s.attempts[a], Next(s, step).attempts[a];
            StatusAfter(s, step, a, row.status, row'.status) && TimesAfter(s, step, a, row, row')
  {
  }

  lemma EndedAttempt(s: State, step: Step, a: AttemptId)
    requires (step.Expire? || step.OpCancel?) && a < |s.attempts|
    ensures a < |Next(s, step).attempts|
    ensures var row, row' := s.attempts[a], Next(s, step).attempts[a];
            StatusAfter(s, step, a, row.status, row'.status) && TimesAfter(s, step, a, row, row')
  {
  }

  lemma UntouchedAttempt(s: State, step: Step, a: AttemptId)
    requires Possible(s, step) && !Touches(step) && a < |s.attempts|
    ensures a < |Next(s, step).attempts|
    ensures var row, row' := s.attempts[a], Next(s, step).attempts[a];
            StatusAfter(s, step, a, row.status, row'.status) && TimesAfter(s, step, a, row, row')
  {
    assert Next(s, step).attempts[a] == s.attempts[a];
  }

  /** A new attempt is an open offer of its job to its node, with the lease, deadline and time it was given. */
  lemma OfferedRow(s: State, step: Step)
    requires (step.Offer? || step.OfferVerification?) && step.job < |s.jobs|
    ensures |Next(s, step).attempts| == |s.attempts| + 1
    ensures var row := Next(s, step).attempts[|s.attempts|];
            && row.job == step.job && row.node == step.node && (row.kind == Standard <==> step.Offer?)
            && row.status == Offered && row.createdAt == step.now && row.leaseExpiresAt == step.lease
            && row.deadlineAt == step.deadline && row.acceptedAt.None? && row.finishedAt.None?
  {
  }

  // ---------------------------------------------------------------- the life of a job

  /** The report of a failed attempt is taken: the attempt is known. */
  predicate PutsBack(s: State, step: Step, j: JobId) {
    step.FailOne? && step.job == j && step.attempt < |s.attempts|
  }

  predicate GivesUp(s: State, step: Step, j: JobId) {
    step.FailWhole? && step.job == j && (step.named.None? || step.named.value < |s.attempts|)
  }

  /** One of the job's attempts is taken up or set off. */
  predicate GetsGoing(s: State, step: Step, j: JobId) {
    || (step.Accept? && step.job == j && step.attempt < |s.attempts| && TakesUp(s, step, step.attempt))
    || (step.Start? && step.job == j && Names(s, j, step.attempt)
        && (s.attempts[step.attempt].status == Accepted || s.attempts[step.attempt].status == Running))
  }

  predicate TakesBack(s: State, step: Step, j: JobId)
    requires j < |s.jobs|
  {
    || (step.Cancel? && step.job == j && step.org == s.jobs[j].org
        && (s.jobs[j].state == Queued || s.jobs[j].state == Leased))
    || (step.OpCancel? && step.job == j && s.jobs[j].state != Done)
  }

  predicate Revives(s: State, step: Step, j: JobId)
    requires j < |s.jobs|
  {
    step.OpRetry? && step.job == j && (s.jobs[j].state == Broken || s.jobs[j].state == Withdrawn)
  }

  ghost predicate Finishes(s: State, step: Step, j: JobId) {
    Accepts(s, step) && step.completion.job == j
  }

  /** The steps that move a job at all. */
  ghost predicate MovesJob(s: State, step: Step, j: JobId)
    requires j < |s.jobs|
  {
    || (step.Offer? && step.job == j) || (GetsGoing(s, step, j) && s.jobs[j].state != Done) || Finishes(s, step, j)
    || (PutsBack(s, step, j) && (s.jobs[j].state == Leased || s.jobs[j].state == Started))
    || GivesUp(s, step, j) || TakesBack(s, step, j) || Revives(s, step, j)
  }

  /** State by state, what brings a job there and what leaves it there. */
  ghost predicate JobAfter(s: State, step: Step, j: JobId, before: Job, after: Job)
    requires j < |s.jobs|
  {
    && after.org == before.org && after.request == before.request
    && (after.state == Queued <==>
          || (PutsBack(s, step, j) && (before.state == Leased || before.state == Started))
          || Revives(s, step, j) || (before.state == Queued && !MovesJob(s, step, j)))
    && (after.state == Leased <==>
          (step.Offer? && step.job == j) || (before.state == Leased && !MovesJob(s, step, j)))
    && (after.state == Started <==>
          || (GetsGoing(s, step, j) && before.state != Done)
          || (before.state == Started && !MovesJob(s, step, j)))
    && (after.state == Done <==>
          Finishes(s, step, j) || (before.state == Done && !(step.Offer? && step.job == j) && !GivesUp(s, step, j)))
    && (after.state == Broken <==> GivesUp(s, step, j) || (before.state == Broken && !MovesJob(s, step, j)))
    && (after.state == Withdrawn <==>
          TakesBack(s, step, j) || (before.state == Withdrawn && !MovesJob(s, step, j)))
  }

  /** Every step does to every job just what the table says. */
  lemma JobAfterStep(s: State, step: Step, j: JobId)
    requires Possible(s, step) && j < |s.jobs|
    ensures j < |Next(s, step).jobs| && JobAfter(s, step, j, s.jobs[j], Next(s, step).jobs[j])
  {
    if step.Complete? {
      CompletedJob(s, step, j);
    } else if step.Accept? || step.Start? {
      StartedJob(s, step, j);
    } else if step.FailOne? || step.FailWhole? {
      FailedJob(s, step, j);
    } else if step.Cancel? || step.OpCancel? || step.OpRetry? || step.Offer? {
      RecalledJob(s, step, j);
    } else {
      UntouchedJob(s, step, j);
    }
  }

  lemma CompletedJob(s: State, step: Step, j: JobId)
    requires step.Complete? && j < |s.jobs|
    ensures j < |Next(s, step).jobs| && JobAfter(s, step, j, s.jobs[j], Next(s, step).jobs[j])
  {
  }

  lemma StartedJob(s: State, step: Step, j: JobId)
    requires (step.Accept? || step.Start?) && j < |s.jobs|
    ensures j < |Next(s, step).jobs| && JobAfter(s, step, j, s.jobs[j], Next(s, step).jobs[j])
  {
  }

  lemma FailedJob(s: State, step: Step, j: JobId)
    requires (step.FailOne? || step.FailWhole?) && j < |s.jobs|
    ensures j < |Next(s, step).jobs| && JobAfter(s, step, j, s.jobs[j], Next(s, step).jobs[j])
  {
  }

  lemma RecalledJob(s: State, step: Step, j: JobId)
    requires (step.Cancel? || step.OpCancel? || step.OpRetry? || step.Offer?) && j < |s.jobs|
    ensures j < |Next(s, step).jobs| && JobAfter(s, step, j, s.jobs[j], Next(s, step).jobs[j])
  {
  }

  predicate MovesSomeJob(step: Step) {
    || step.Complete? || step.Accept? || step.Start? || step.FailOne? || step.FailWhole? || step.Cancel?
    || step.OpCancel? || step.OpRetry? || step.Offer?
  }

  lemma UntouchedJob(s: State, step: Step, j: JobId)
    requires Possible(s, step) && !MovesSomeJob(step) && j < |s.jobs|
    ensures j < |Next(s, step).jobs| && JobAfter(s, step, j, s.jobs[j], Next(s, step).jobs[j])
  {
    assert Next(s, step).jobs[j] == s.jobs[j];
  }

  lemma CreatedJob(s: State, org: OrgId, request: Metering.Request)
    ensures var s' := Next(s, NewJob(org, request));
            && |s'.jobs| == |s.jobs| + 1 && s.jobs <= s'.jobs
            && s'.jobs[|s.jobs|].org == org && s'.jobs[|s.jobs|].request == request
            && s'.jobs[|s.jobs|].state == Queued && s' == s.(jobs := s'.jobs)
  {
  }

  // ---------------------------------------------------------------- whole runs

  /** Attempt a was created by step i. */
  ghost predicate CreatedAt(states: seq<State>, steps: seq<Step>, i: nat, a: AttemptId)
    requires |states| == |steps| + 1 && i < |steps|
  {
    a == |states[i].attempts| && |states[i + 1].attempts| > |states[i].attempts|
  }

  /** Since it was created nothing has ended the attempt. */
  ghost predicate OpenUntil(states: seq<State>, steps: seq<Step>, i: nat, k: nat, a: AttemptId)
    requires i <= k < |states| == |steps| + 1
  {
    forall m | i <= m < k :: a < |states[m].attempts| && !Ends(states[m], steps[m], a)
  }

  /** In every run an attempt is open exactly as long as nothing has ended it. */
  lemma {:induction false} OpenIff(states: seq<State>, steps: seq<Step>, i: nat, k: nat, a: AttemptId)
    requires IsRun(states, steps) && i < k < |states| && CreatedAt(states, steps, i, a)
    ensures a < |states[k].attempts|
            && (Active(states[k].attempts[a].status) <==> OpenUntil(states, steps, i + 1, k, a))
    decreases k
  {
    assert StepAt(states, steps, k - 1);
    if i + 1 == k {
      AttemptsGrow(states[i], steps[i]);
    } else {
      OpenIff(states, steps, i, k - 1, a);
      AttemptAfterStep(states[k - 1], steps[k - 1], a);
    }
  }

  /**
   An operator's cancel leaves no attempt of the job open, withdraws the job unless it is done, and stops at
   that job.
   */
  lemma CancelEndsAttempts(s: State, j: JobId, at: Time, a: AttemptId)
    requires a < |s.attempts|
    ensures var s' := OperatorCancel(s, j, at);
            && |s'.attempts| == |s.attempts|
            && (s.attempts[a].job == j ==> !Active(s'.attempts[a].status))
            && (s.attempts[a].job == j && Active(s.attempts[a].status) ==> s'.attempts[a].status == Cancelled)
            && (s.attempts[a].job != j || !Active(s.attempts[a].status) ==> s'.attempts[a] == s.attempts[a])
            && (j < |s.jobs| ==> |s'.jobs| == |s.jobs| && (s.jobs[j].state != Done ==> s'.jobs[j].state == Withdrawn))
  {
    AttemptAfterStep(s, OpCancel(j, at), a);
  }
}
