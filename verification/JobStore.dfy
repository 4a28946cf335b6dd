/**
 The job store as the coordinator runs it: rows updated in place, one transaction per method,
 billing done by the ledger store inside the completion. Every method commits exactly the step
 the job model describes, or leaves all tables as they were.
 */
module JobStore {
  import opened Options
  import opened Charges
  import opened Jobs
  import Ledger
  import LedgerStore
  import Metering

  /** UPDATE ... WHERE offered and overdue RETURNING: the new rows and the attempts it expired. */
  method ExpireRows(attempts: seq<Attempt>, now: Time) returns (rows: seq<Attempt>, expired: seq<AttemptId>)
    ensures rows == ExpireAll(attempts, now)
    ensures expired == ExpiredIds(attempts, now)
  {
    rows, expired := [], [];
    for a := 0 to |attempts|
      invariant |rows| == a && forall k | 0 <= k < a :: rows[k] == ExpireRow(attempts[k], now)
      invariant expired == ExpiredIds(attempts[..a], now)
    {
      assert attempts[..a + 1][..a] == attempts[..a];
      if attempts[a].status == Offered && attempts[a].leaseExpiresAt <= now {
        rows := rows + [attempts[a].(status := Expired, finishedAt := Some(now))];
        expired := expired + [a];
      } else {
        rows := rows + [attempts[a]];
      }
    }
    assert attempts[..|attempts|] == attempts;
  }

  class Store {
    var jobs: seq<Job>
    var attempts: seq<Attempt>
    var results: seq<ResultRow>
    const ledger: LedgerStore.Store

    ghost function View(): State
      reads this, ledger
    {
      State(jobs, attempts, results, ledger.View())
    }

    constructor (ledger: LedgerStore.Store)
      requires ledger.View() == Ledger.EMPTY
      ensures View() == EMPTY && this.ledger == ledger
    {
      jobs, attempts, results := [], [], [];
      this.ledger := ledger;
    }

    method SetJobState(j: JobId, from: set<JobState>, to: JobState)
      modifies this`jobs
      ensures View() == SetJob(old(View()), j, from, to)
    {
      if j < |jobs| && jobs[j].state in from {
        jobs := jobs[j := jobs[j].(state := to)];
      }
    }

    method CreateJob(org: OrgId, request: Metering.Request) returns (j: JobId)
      modifies this`jobs
      ensures View() == Jobs.CreateJob(old(View()), org, request) && j == |old(jobs)|
    {
      j := |jobs|;
      jobs := jobs + [Job(org, request, Queued)];
    }

    method CreateAttempt(j: JobId, n: NodeId, lease: Time, deadline: Time, now: Time) returns (r: Result<AttemptId>)
      modifies this`jobs, this`attempts
      ensures View() == OrElse(Jobs.CreateAttempt(old(View()), j, n, lease, deadline, now), old(View()))
      ensures r == if j < |old(jobs)| then Ok(|old(attempts)|) else Err(NoSuchJob)
    {
      if j >= |jobs| { return Err(NoSuchJob); }
      r := Ok(|attempts|);
      attempts := attempts + [Attempt(j, n, Standard, Offered, now, lease, deadline, None, None)];
      SetJobState(j, ANY, Leased);
    }

    method CreateVerificationAttempt(j: JobId, n: NodeId, lease: Time, deadline: Time, now: Time)
      returns (r: Result<AttemptId>)
      modifies this`attempts
      ensures View() == OrElse(Jobs.CreateVerificationAttempt(old(View()), j, n, lease, deadline, now), old(View()))
      ensures r == if j < |old(jobs)| then Ok(|old(attempts)|) else Err(NoSuchJob)
    {
      if j >= |jobs| { return Err(NoSuchJob); }
      r := Ok(|attempts|);
      attempts := attempts + [Attempt(j, n, Verification, Offered, now, lease, deadline, None, None)];
    }

    method MarkAccepted(j: JobId, a: AttemptId, at: Time) returns (r: Result<()>)
      modifies this`jobs, this`attempts
      ensures View() == OrElse(Jobs.MarkAccepted(old(View()), j, a, at), old(View()))
      ensures r.Ok? <==> Jobs.MarkAccepted(old(View()), j, a, at).Ok?
    {
      if a >= |attempts| || attempts[a].job != j || attempts[a].status != Offered { return Err(OfferWindowClosed); }
      if at > attempts[a].leaseExpiresAt
         || at > attempts[a].createdAt + ACCEPT_WINDOW {
        return Err(OfferWindowClosed);
      }
      attempts := attempts[a := attempts[a].(status := Accepted, acceptedAt := Some(at))];
      SetJobState(j, ANY - {Done}, Started);
      r := Ok(());
    }

    method MarkStarted(j: JobId, a: AttemptId) returns (r: Result<()>)
      modifies this`jobs, this`attempts
      ensures View() == OrElse(Jobs.MarkStarted(old(View()), j, a), old(View()))
      ensures r.Ok? <==> Jobs.MarkStarted(old(View()), j, a).Ok?
    {
      if a >= |attempts| || attempts[a].job != j { return Err(NotAccepted); }
      if attempts[a].status != Accepted && attempts[a].status != Running { return Err(NotAccepted); }
      attempts := attempts[a := attempts[a].(status := Running)];
      SetJobState(j, ANY - {Done}, Started);
      r := Ok(());
    }

    /** The guards of a completion, in the order the transaction checks them. */
    method CompletionGuards(c: Completion, at: Time) returns (error: Option<Error>)
      ensures error.None? ==>
                && Names(View(), c.job, c.attempt)
                && !SucceededElsewhere(View(), c.job, c.attempt) && attempts[c.attempt].status in {Accepted, Running}
                && attempts[c.attempt].acceptedAt.Some?
                   && attempts[c.attempt].acceptedAt.value <= attempts[c.attempt].leaseExpiresAt
                && at <= attempts[c.attempt].deadlineAt && !HasResult(View(), c.attempt) && StorableUsage(c.usage)
      ensures error.Some? ==> forall hold: int, prices: Option<Prices> ::
              Jobs.CompleteJob(View(), c, at, hold, prices).Err?
    {
      if c.attempt >= |attempts| || attempts[c.attempt].job != c.job { return Some(NoSuchAttempt); }
      var row := attempts[c.attempt];
      if exists o | 0 <= o < |attempts| ::
           o != c.attempt && attempts[o].job == c.job && attempts[o].status == Succeeded {
        return Some(AlreadyAccepted);
      }
      if row.status == Succeeded { return Some(AlreadyAccepted); }
      if row.status != Accepted && row.status != Running { return Some(WrongStatus); }
      if row.acceptedAt.None? { return Some(NeverAccepted); }
      if row.acceptedAt.value > row.leaseExpiresAt { return Some(AcceptedAfterLease); }
      if at > row.deadlineAt { return Some(PastDeadline); }
      if exists r | 0 <= r < |results| :: results[r].attempt == c.attempt { return Some(ResultExists); }
      if !StorableUsage(c.usage) { return Some(TokenRange); }
      error := None;
    }

    method CompleteJob(c: Completion, at: Time, creditHold: int, prices: Option<Prices>) returns (r: Result<()>)
      modifies this, ledger
      ensures View() == OrElse(Jobs.CompleteJob(old(View()), c, at, creditHold, prices), old(View()))
      ensures r.Ok? <==> Jobs.CompleteJob(old(View()), c, at, creditHold, prices).Ok?
    {
      var error := CompletionGuards(c, at);
      if error.Some? { return Err(error.value); }
      var pricing := PricingFor(State(jobs, attempts, results, Ledger.EMPTY), c.job, c.attempt, prices);
      var posted := ledger.PostAcceptedJob(PostingFor(c, at, creditHold), pricing);
      if posted.Err? { return Err(LedgerRefused); }
      results := results + [ResultRow(c.job, c.attempt, c.usage)];
      attempts := attempts[c.attempt := attempts[c.attempt].(status := Succeeded, finishedAt := Some(at))];
      SetJobState(c.job, ANY, Done);
      r := Ok(());
    }

    method FailAttempt(j: JobId, a: AttemptId, at: Time) returns (r: Result<()>)
      modifies this`jobs, this`attempts
      ensures View() == OrElse(Jobs.FailAttempt(old(View()), j, a, at), old(View()))
      ensures r.Ok? <==> a < |old(attempts)|
    {
      if a >= |attempts| { return Err(NoSuchAttempt); }
      if attempts[a].job == j && Active(attempts[a].status) {
        attempts := attempts[a := FailRow(attempts[a], at)];
      }
      SetJobState(j, {Leased, Started}, Queued);
      r := Ok(());
    }

    method FailJob(j: JobId, attempt: Option<AttemptId>, at: Time) returns (r: Result<()>)
      modifies this`jobs, this`attempts
      ensures View() == OrElse(Jobs.FailJob(old(View()), j, attempt, at), old(View()))
      ensures r.Ok? <==> attempt.None? || attempt.value < |old(attempts)|
    {
      if attempt.Some? {
        var a := attempt.value;
        if a >= |attempts| { return Err(NoSuchAttempt); }
        if attempts[a].job == j {
          attempts := attempts[a := FailRow(attempts[a], at)];
        }
      }
      SetJobState(j, ANY, Broken);
      r := Ok(());
    }

    method MarkVerificationAttemptCompleted(j: JobId, a: AttemptId, at: Time) returns (r: Result<()>)
      modifies this`attempts
      ensures View() == OrElse(Jobs.MarkVerificationCompleted(old(View()), j, a, at), old(View()))
      ensures r.Ok? <==> a < |old(attempts)|
    {
      if a >= |attempts| { return Err(NoSuchAttempt); }
      if attempts[a].job == j && (attempts[a].status == Accepted || attempts[a].status == Running) {
        attempts := attempts[a := attempts[a].(status := Verified, finishedAt := Some(at))];
      }
      r := Ok(());
    }

    method MarkVerificationAttemptFailed(j: JobId, a: AttemptId, at: Time) returns (r: Result<()>)
      modifies this`attempts
      ensures View() == OrElse(Jobs.MarkVerificationFailed(old(View()), j, a, at), old(View()))
      ensures r.Ok? <==> a < |old(attempts)|
    {
      if a >= |attempts| { return Err(NoSuchAttempt); }
      if attempts[a].job == j && Active(attempts[a].status) {
        attempts := attempts[a := FailRow(attempts[a], at)];
      }
      r := Ok(());
    }

    method PostVerificationOverhead(c: Completion, at: Time, creditHold: int, prices: Option<Prices>)
      returns (r: Result<()>)
      modifies ledger
      ensures View() == OrElse(Jobs.PostVerificationOverhead(old(View()), c, at, creditHold, prices), old(View()))
      ensures r.Ok? <==> Jobs.PostVerificationOverhead(old(View()), c, at, creditHold, prices).Ok?
    {
      var pricing := PricingFor(State(jobs, attempts, results, Ledger.EMPTY), c.job, c.attempt, prices);
      var posted := ledger.PostVerificationOverhead(PostingFor(c, at, creditHold), pricing);
      r := if posted.Ok? then Ok(()) else Err(LedgerRefused);
    }

    method CancelJob(org: OrgId, j: JobId) returns (r: Result<()>)
      modifies this`jobs
      ensures View() == OrElse(Jobs.CancelJob(old(View()), org, j), old(View()))
      ensures r.Ok? <==> Jobs.CancelJob(old(View()), org, j).Ok?
    {
      if j >= |jobs| || jobs[j].org != org
         || (jobs[j].state != Queued && jobs[j].state != Leased) {
        return Err(NotCancellable);
      }
      SetJobState(j, ANY, Withdrawn);
      r := Ok(());
    }

    method ExpireLeases(now: Time) returns (expired: seq<AttemptId>)
      modifies this`attempts
      ensures View() == Jobs.ExpireLeases(old(View()), now)
      ensures expired == ExpiredIds(old(attempts), now)
    {
      attempts, expired := ExpireRows(attempts, now);
    }

    method OperatorCancelJob(j: JobId, at: Time)
      modifies this`jobs, this`attempts
      ensures View() == OperatorCancel(old(View()), j, at)
    {
      attempts := CancelAll(attempts, j, at);
      SetJobState(j, ANY - {Done}, Withdrawn);
    }

    method OperatorRetryJob(j: JobId)
      modifies this`jobs
      ensures View() == OperatorRetry(old(View()), j)
    {
      SetJobState(j, {Broken, Withdrawn}, Queued);
    }
  }
}
