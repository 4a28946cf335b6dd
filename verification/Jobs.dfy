/**
 Jobs, attempts and accepted results, with the ledger that bills them: what each guarded UPDATE
 of the job store and the operator store does. Identifiers are row numbers; a refused or failed
 transaction is rolled back.
 */
module Jobs {
  import opened Options
  import opened Charges
  import Ledger
  import LedgerRuns
  import Metering

  type NodeId = Ledger.NodeId
  type OrgId = Ledger.OrgId
  type JobId = Ledger.JobId
  type AttemptId = Ledger.AttemptId
  type Time = Ledger.Time

  const ACCEPT_WINDOW: int := 2 * Ledger.SECOND
  const MAX_INTEGER: int := 0x7fff_ffff

  datatype JobState = Queued | Leased | Started | Done | Broken | Withdrawn
  datatype Job = Job(org: OrgId, request: Metering.Request, state: JobState)

  datatype Status = Offered | Accepted | Running | Succeeded | Verified | Expired | Cancelled | Failed

  /** Which of the two INSERT statements created the attempt; the table itself does not record it. */
  datatype Kind = Standard | Verification

  datatype Attempt = Attempt(job: JobId, node: NodeId, kind: Kind, status: Status, createdAt: Time,
                             leaseExpiresAt: Time, deadlineAt: Time, acceptedAt: Option<Time>,
                             finishedAt: Option<Time>)

  datatype ResultRow = ResultRow(job: JobId, attempt: AttemptId, usage: Usage)

  datatype State = State(jobs: seq<Job>, attempts: seq<Attempt>, results: seq<ResultRow>, ledger: Ledger.State)

  const EMPTY: State := State([], [], [], Ledger.EMPTY)

  datatype Error =
    | NoSuchJob | NoSuchAttempt | OfferWindowClosed | NotAccepted | AlreadyAccepted | WrongStatus | NeverAccepted
    | AcceptedAfterLease | PastDeadline | ResultExists | TokenRange | LedgerRefused | NotCancellable
  datatype Result<+T> = Ok(value: T) | Err(error: Error)

  predicate Active(status: Status) {
    status == Offered || status == Accepted || status == Running
  }

  /** The WHERE clause `id = $1 AND job_id = $2`. */
  predicate Names(s: State, j: JobId, a: AttemptId) {
    a < |s.attempts| && s.attempts[a].job == j
  }

  function SetAttempt(s: State, a: AttemptId, row: Attempt): State
    requires a < |s.attempts|
  {
    s.(attempts := s.attempts[a := row])
  }

  /** UPDATE jobs SET state = ... WHERE id = $1 AND the state is one of `from`. */
  function SetJob(s: State, j: JobId, from: set<JobState>, to: JobState): State {
    if j < |s.jobs| && s.jobs[j].state in from then s.(jobs := s.jobs[j := s.jobs[j].(state := to)]) else s
  }

  const ANY: set<JobState> := {Queued, Leased, Started, Done, Broken, Withdrawn}

  function CreateJob(s: State, org: OrgId, request: Metering.Request): State {
    s.(jobs := s.jobs + [Job(org, request, Queued)])
  }

  function NewAttempt(j: JobId, n: NodeId, kind: Kind, lease: Time, deadline: Time, now: Time): Attempt {
    Attempt(j, n, kind, Offered, now, lease, deadline, None, None)
  }

  function CreateAttempt(s: State, j: JobId, n: NodeId, lease: Time, deadline: Time, now: Time): Result<State> {
    if j >= |s.jobs| then Err(NoSuchJob)
    else Ok(SetJob(s.(attempts := s.attempts + [NewAttempt(j, n, Standard, lease, deadline, now)]), j, ANY, Leased))
  }

  function CreateVerificationAttempt(s: State, j: JobId, n: NodeId, lease: Time, deadline: Time,
                                     now: Time): Result<State>
  {
    if j >= |s.jobs| then Err(NoSuchJob)
    else Ok(s.(attempts := s.attempts + [NewAttempt(j, n, Verification, lease, deadline, now)]))
  }

  function MarkAccepted(s: State, j: JobId, a: AttemptId, at: Time): Result<State> {
    if Names(s, j, a) && s.attempts[a].status == Offered && at <= s.attempts[a].leaseExpiresAt
       && at <= s.attempts[a].createdAt + ACCEPT_WINDOW
    then
      Ok(SetJob(SetAttempt(s, a, s.attempts[a].(status := Accepted, acceptedAt := Some(at))), j, ANY - {Done}, Started))
    else Err(OfferWindowClosed)
  }

  function MarkStarted(s: State, j: JobId, a: AttemptId): Result<State> {
    if Names(s, j, a) && (s.attempts[a].status == Accepted || s.attempts[a].status == Running)
    then Ok(SetJob(SetAttempt(s, a, s.attempts[a].(status := Running)), j, ANY - {Done}, Started))
    else Err(NotAccepted)
  }

  datatype Completion = Completion(job: JobId, attempt: AttemptId, usage: Usage)

  predicate SucceededElsewhere(s: State, j: JobId, a: AttemptId) {
    exists o | 0 <= o < |s.attempts| :: o != a && s.attempts[o].job == j && s.attempts[o].status == Succeeded
  }

  predicate HasResult(s: State, a: AttemptId) {
    exists r | 0 <= r < |s.results| :: s.results[r].attempt == a
  }

  /** The integer columns with their CHECK constraints. */
  predicate StorableUsage(u: Usage) {
    0 <= u.prompt <= MAX_INTEGER && 0 <= u.completion <= MAX_INTEGER
  }

  function PricingFor(s: State, j: JobId, a: AttemptId, prices: Option<Prices>): Option<Ledger.Pricing> {
    if prices.Some? && j < |s.jobs| && Names(s, j, a)
    then Some(Ledger.Pricing(s.jobs[j].org, s.attempts[a].node, prices.value))
    else None
  }

  function PostingFor(c: Completion, at: Time, creditHold: int): Ledger.Posting {
    Ledger.Posting(c.job, c.attempt, at, creditHold, c.usage, 0)
  }

  function MarkSucceeded(s: State, c: Completion, at: Time, ledger: Ledger.State): State
    requires c.attempt < |s.attempts|
  {
    SetJob(
      SetAttempt(s, c.attempt, s.attempts[c.attempt].(status := Succeeded, finishedAt := Some(at)))
        .(results := s.results + [ResultRow(c.job, c.attempt, c.usage)], ledger := ledger),
      c.job, ANY, Done)
  }

  ghost function CompleteJob(s: State, c: Completion, at: Time, creditHold: int, prices: Option<Prices>): Result<State>
  {
    if !Names(s, c.job, c.attempt) then Err(NoSuchAttempt)
    else
      var row := s.attempts[c.attempt];
      if SucceededElsewhere(s, c.job, c.attempt) || row.status == Succeeded then Err(AlreadyAccepted)
      else if row.status != Accepted && row.status != Running then Err(WrongStatus)
      else if row.acceptedAt.None? then Err(NeverAccepted)
      else if row.acceptedAt.value > row.leaseExpiresAt then Err(AcceptedAfterLease)
      else if at > row.deadlineAt then Err(PastDeadline)
      else if HasResult(s, c.attempt) then Err(ResultExists)
      else if !StorableUsage(c.usage) then Err(TokenRange)
      else
        match Ledger.PostAccepted(s.ledger, PostingFor(c, at, creditHold), PricingFor(s, c.job, c.attempt, prices))
        case Err(_) => Err(LedgerRefused)
        case Ok(ledger) => Ok(MarkSucceeded(s, c, at, ledger))
  }

  function FailRow(row: Attempt, at: Time): Attempt {
    row.(status := Failed, finishedAt := Some(at))
  }

  /** The reputation update reads the attempt's node, so an unknown attempt aborts the transaction. */
  function FailAttempt(s: State, j: JobId, a: AttemptId, at: Time): Result<State> {
    if a >= |s.attempts| then Err(NoSuchAttempt)
    else
      var failed :=
        if s.attempts[a].job == j && Active(s.attempts[a].status) then SetAttempt(s, a, FailRow(s.attempts[a], at))
        else s;
      Ok(SetJob(failed, j, {Leased, Started}, Queued))
  }

  function FailJob(s: State, j: JobId, attempt: Option<AttemptId>, at: Time): Result<State> {
    match attempt
    case None => Ok(SetJob(s, j, ANY, Broken))
    case Some(a) =>
      if a >= |s.attempts| then Err(NoSuchAttempt)
      else
        var failed := if s.attempts[a].job == j then SetAttempt(s, a, FailRow(s.attempts[a], at)) else s;
        Ok(SetJob(failed, j, ANY, Broken))
  }

  function MarkVerificationCompleted(s: State, j: JobId, a: AttemptId, at: Time): Result<State> {
    if a >= |s.attempts| then Err(NoSuchAttempt)
    else if s.attempts[a].job == j && (s.attempts[a].status == Accepted || s.attempts[a].status == Running)
    then Ok(SetAttempt(s, a, s.attempts[a].(status := Verified, finishedAt := Some(at))))
    else Ok(s)
  }

  function MarkVerificationFailed(s: State, j: JobId, a: AttemptId, at: Time): Result<State> {
    if a >= |s.attempts| then Err(NoSuchAttempt)
    else if s.attempts[a].job == j && Active(s.attempts[a].status) then Ok(SetAttempt(s, a, FailRow(s.attempts[a], at)))
    else Ok(s)
  }

  ghost function PostVerificationOverhead(s: State, c: Completion, at: Time, creditHold: int,
                                          prices: Option<Prices>): Result<State>
  {
    match Ledger.PostVerification(s.ledger, PostingFor(c, at, creditHold), PricingFor(s, c.job, c.attempt, prices))
    case Err(_) => Err(LedgerRefused)
    case Ok(ledger) => Ok(s.(ledger := ledger))
  }

  function CancelJob(s: State, org: OrgId, j: JobId): Result<State> {
    if j < |s.jobs| && s.jobs[j].org == org && (s.jobs[j].state == Queued || s.jobs[j].state == Leased)
    then Ok(SetJob(s, j, ANY, Withdrawn))
    else Err(NotCancellable)
  }

  predicate LeaseOver(row: Attempt, now: Time) {
    row.status == Offered && row.leaseExpiresAt <= now
  }

  function ExpireRow(row: Attempt, now: Time): Attempt {
    if LeaseOver(row, now) then row.(status := Expired, finishedAt := Some(now)) else row
  }

  function ExpireAll(attempts: seq<Attempt>, now: Time): (r: seq<Attempt>)
    ensures |r| == |attempts|
    ensures forall a | 0 <= a < |attempts| :: r[a] == ExpireRow(attempts[a], now)
  {
    seq(|attempts|, a requires 0 <= a < |attempts| => ExpireRow(attempts[a], now))
  }

  /** The identifiers RETURNING lists, in table order. */
  function ExpiredIds(attempts: seq<Attempt>, now: Time): (ids: seq<AttemptId>)
    ensures forall k | 0 <= k < |ids| :: ids[k] < |attempts| && LeaseOver(attempts[ids[k]], now)
  {
    if attempts == [] then []
    else
      var n := |attempts| - 1;
      ExpiredIds(attempts[..n], now) + if LeaseOver(attempts[n], now) then [n] else []
  }

  function ExpireLeases(s: State, now: Time): State {
    s.(attempts := ExpireAll(s.attempts, now))
  }

  function CancelRow(row: Attempt, j: JobId, at: Time): Attempt {
    if row.job == j && Active(row.status)
    then row.(status := Cancelled, finishedAt := if row.finishedAt.None? then Some(at) else row.finishedAt)
    else row
  }

  function CancelAll(attempts: seq<Attempt>, j: JobId, at: Time): (r: seq<Attempt>)
    ensures |r| == |attempts|
    ensures forall a | 0 <= a < |attempts| :: r[a] == CancelRow(attempts[a], j, at)
  {
    seq(|attempts|, a requires 0 <= a < |attempts| => CancelRow(attempts[a], j, at))
  }

  function OperatorCancel(s: State, j: JobId, at: Time): State {
    SetJob(s.(attempts := CancelAll(s.attempts, j, at)), j, ANY - {Done}, Withdrawn)
  }

  function OperatorRetry(s: State, j: JobId): State {
    SetJob(s, j, {Broken, Withdrawn}, Queued)
  }

  // ---------------------------------------------------------------- steps and runs

  datatype Step =
    | NewJob(org: OrgId, request: Metering.Request)
    | Offer(job: JobId, node: NodeId, lease: Time, deadline: Time, now: Time)
    | OfferVerification(job: JobId, node: NodeId, lease: Time, deadline: Time, now: Time)
    | Accept(job: JobId, attempt: AttemptId, at: Time)
    | Start(job: JobId, attempt: AttemptId)
    | Complete(completion: Completion, at: Time, creditHold: int, prices: Option<Prices>)
    | FailOne(job: JobId, attempt: AttemptId, at: Time)
    | FailWhole(job: JobId, named: Option<AttemptId>, at: Time)
    | Verify(job: JobId, attempt: AttemptId, at: Time)
    | VerifyFailed(job: JobId, attempt: AttemptId, at: Time)
    | PostOverhead(completion: Completion, at: Time, creditHold: int, prices: Option<Prices>)
    | Cancel(org: OrgId, job: JobId)
    | Expire(now: Time)
    | OpCancel(job: JobId, at: Time)
    | OpRetry(job: JobId)
    | Payouts(step: LedgerRuns.Step)

  /** Money moves outside the job store only through releases and payout batches. */
  ghost predicate Possible(s: State, step: Step) {
    match step
    case Payouts(p) => !p.Accept? && !p.Verify? && LedgerRuns.Possible(s.ledger, p)
    case _ => true
  }

  function OrElse(r: Result<State>, s: State): State {
    match r
    case Ok(s') => s'
    case Err(_) => s
  }

  ghost function Next(s: State, step: Step): State
    requires Possible(s, step)
  {
    match step
    case NewJob(org, request) => CreateJob(s, org, request)
    case Offer(j, n, lease, deadline, now) => OrElse(CreateAttempt(s, j, n, lease, deadline, now), s)
    case OfferVerification(j, n, lease, deadline, now) =>
      OrElse(CreateVerificationAttempt(s, j, n, lease, deadline, now), s)
    case Accept(j, a, at) => OrElse(MarkAccepted(s, j, a, at), s)
    case Start(j, a) => OrElse(MarkStarted(s, j, a), s)
    case Complete(c, at, hold, prices) => OrElse(CompleteJob(s, c, at, hold, prices), s)
    case FailOne(j, a, at) => OrElse(FailAttempt(s, j, a, at), s)
    case FailWhole(j, named, at) => OrElse(FailJob(s, j, named, at), s)
    case Verify(j, a, at) => OrElse(MarkVerificationCompleted(s, j, a, at), s)
    case VerifyFailed(j, a, at) => OrElse(MarkVerificationFailed(s, j, a, at), s)
    case PostOverhead(c, at, hold, prices) => OrElse(PostVerificationOverhead(s, c, at, hold, prices), s)
    case Cancel(org, j) => OrElse(CancelJob(s, org, j), s)
    case Expire(now) => ExpireLeases(s, now)
    case OpCancel(j, at) => OperatorCancel(s, j, at)
    case OpRetry(j) => OperatorRetry(s, j)
    case Payouts(p) => s.(ledger := LedgerRuns.Next(s.ledger, p))
  }

  ghost predicate IsRun(states: seq<State>, steps: seq<Step>) {
    |states| == |steps| + 1 && forall k: nat | k < |steps| :: StepAt(states, steps, k)
  }

  ghost predicate StepAt(states: seq<State>, steps: seq<Step>, k: nat)
    requires |states| == |steps| + 1 && k < |steps|
  {
    Possible(states[k], steps[k]) && states[k + 1] == Next(states[k], steps[k])
  }
}
