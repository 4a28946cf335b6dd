/**
 The job service: which node gets an offer, what a node's message or a lost session leads to, and
 how failed, expired and sampled jobs get further attempts. One handler call is one step; what the
 outside world decides (candidate nodes, the scheduler's preference, delivery, clocks, signatures)
 comes in with the event.
 */
module Dispatch {
  import opened Options
  import opened Charges
  import opened Jobs
  import Ledger
  import LedgerRuns
  import Metering

  type SessionId = nat

  const DEFAULT_LEASE: int := 10 * Ledger.SECOND
  const VERIFICATION_TIME: int := 30 * Ledger.SECOND

  datatype ActiveJob = ActiveJob(job: JobId, attempt: AttemptId)
  datatype RunState = RunState(request: Metering.Request, deadline: Time, excluded: set<NodeId>, attempts: nat)
  datatype Duplicate = Duplicate(job: JobId, original: AttemptId, originalNode: NodeId, request: Metering.Request,
    expected: string)

  datatype Service = Service(
    store: State,
    sessions: map<NodeId, SessionId>,
    active: map<NodeId, ActiveJob>,
    runs: map<JobId, RunState>,
    duplicates: map<AttemptId, Duplicate>)

  const IDLE: Service := Service(EMPTY, map[], map[], map[], map[])

  /** A row of the eligibility query, before its clause on attempts in progress. */
  datatype Candidate = Candidate(node: NodeId, session: SessionId)

  /** What one scheduling attempt meets outside the service. */
  datatype World = World(candidates: seq<Candidate>, preference: nat, delivered: bool, now: Time, storedAt: Time,
    leaseTTL: int, syncTimeout: int)

  /** One store transaction. */
  ghost function Do(s: Service, step: Step): Service
    requires Possible(s.store, step)
  {
    s.(store := Next(s.store, step))
  }

  function ClearActive(s: Service, n: NodeId): Service {
    s.(active := s.active - {n})
  }

  function RemoveRun(s: Service, j: JobId): Service {
    s.(runs := s.runs - {j})
  }

  function RemoveDuplicate(s: Service, a: AttemptId): Service {
    s.(duplicates := s.duplicates - {a})
  }

  /** NOT EXISTS an offered, accepted or running attempt on the node. */
  predicate Occupied(attempts: seq<Attempt>, n: NodeId) {
    exists a | 0 <= a < |attempts| :: attempts[a].node == n && Active(attempts[a].status)
  }

  predicate Usable(attempts: seq<Attempt>, sessions: map<NodeId, SessionId>, active: map<NodeId, ActiveJob>,
                   excluded: set<NodeId>, c: Candidate)
  {
    && !Occupied(attempts, c.node)
    && c.node !in excluded
    && c.node in sessions && sessions[c.node] == c.session
    && c.node !in active
  }

  function Filter(attempts: seq<Attempt>, sessions: map<NodeId, SessionId>, active: map<NodeId, ActiveJob>,
                  excluded: set<NodeId>,
                  candidates: seq<Candidate>): (r: seq<Candidate>)
    ensures forall i | 0 <= i < |r| :: Usable(attempts, sessions, active, excluded, r[i]) && r[i] in candidates
    ensures r == [] <==> forall i | 0 <= i < |candidates| ::
            !Usable(attempts, sessions, active, excluded, candidates[i])
  {
    if candidates == [] then []
    else
      var n := |candidates| - 1;
      assert forall i | 0 <= i < n :: candidates[i] == candidates[..n][i];
      Filter(attempts, sessions, active, excluded, candidates[..n])
      + if Usable(attempts, sessions, active, excluded, candidates[n]) then [candidates[n]] else []
  }

  /** The scheduler picks some member of a non-empty list. */
  function Choose(filtered: seq<Candidate>, preference: nat): (c: Option<Candidate>)
    ensures c.None? <==> filtered == []
    ensures c.Some? ==> c.value in filtered
  {
    if filtered == [] then None else Some(filtered[preference % |filtered|])
  }

  /** A lease always ends after the offer. */
  function LeaseEnd(w: World): (t: Time)
    ensures w.now < t
  {
    w.now + if w.leaseTTL <= 0 then DEFAULT_LEASE else w.leaseTTL
  }

  datatype Outcome = Scheduled | NoCapacity | Broke

  ghost function OfferTo(s: Service, j: JobId, n: NodeId, w: World): (Service, Outcome)
    requires j in s.runs
  {
    var run := s.runs[j];
    var counted := s.(runs := s.runs[j := run.(attempts := run.attempts + 1)]);
    if j >= |s.store.jobs| then (ClearActive(counted, n), Broke)
    else
      var a := |s.store.attempts|;
      var created := Do(counted, Offer(j, n, LeaseEnd(w), run.deadline, w.storedAt));
      if w.delivered then (created.(active := created.active[n := ActiveJob(j, a)]), Scheduled)
      else (Do(ClearActive(created, n), FailOne(j, a, w.now)), Broke)
  }

  ghost function ScheduleInternal(s: Service, j: JobId, w: World): (Service, Outcome) {
    if j !in s.runs then (s, Broke)
    else
      match Choose(Filter(s.store.attempts, s.sessions, s.active, s.runs[j].excluded, w.candidates), w.preference)
      case None => (s, NoCapacity)
      case Some(c) => OfferTo(s, j, c.node, w)
  }

  predicate MayRetry(s: Service, j: JobId) {
    j in s.runs && s.runs[j].attempts < 2
  }

  function PrepareRetry(s: Service, j: JobId, failedNode: NodeId): Service
    requires MayRetry(s, j)
  {
    s.(runs := s.runs[j := s.runs[j].(excluded := s.runs[j].excluded + {failedNode})])
  }

  ghost function GiveUp(s: Service, j: JobId, a: AttemptId, now: Time): Service {
    if a >= |s.store.attempts| then s else RemoveRun(Do(s, FailWhole(j, Some(a), now)), j)
  }

  ghost function HandleExpired(s: Service, a: AttemptId, w: World, now: Time): Service {
    if a >= |s.store.attempts| then s
    else
      var j, n := s.store.attempts[a].job, s.store.attempts[a].node;
      var cleared := ClearActive(s, n);
      if MayRetry(cleared, j) then
        var (tried, outcome) := ScheduleInternal(PrepareRetry(cleared, j, n), j, w);
        if outcome == Scheduled then tried else GiveUp(tried, j, a, now)
      else GiveUp(cleared, j, a, now)
  }

  const NOBODY: World := World([], 0, true, 0, 0, 0, 0)

  function WorldAt(worlds: seq<World>, k: nat): World {
    if k < |worlds| then worlds[k] else NOBODY
  }

  ghost function HandleAllExpired(s: Service, ids: seq<AttemptId>, worlds: seq<World>, now: Time): Service {
    if ids == [] then s
    else
      var k := |ids| - 1;
      HandleExpired(HandleAllExpired(s, ids[..k], worlds, now), ids[k], WorldAt(worlds, k), now)
  }

  ghost function ExpireAndRetry(s: Service, now: Time, worlds: seq<World>): Service {
    HandleAllExpired(Do(s, Expire(now)), ExpiredIds(s.store.attempts, now), worlds, now)
  }

  ghost function ScheduleAttempt(s: Service, j: JobId, now: Time, worlds: seq<World>, w: World): (Service, Outcome) {
    ScheduleInternal(ExpireAndRetry(s, now, worlds), j, w)
  }

  /** A transient failure whose node is already excluded: fail the attempt and schedule again. */
  ghost function Retried(s: Service, j: JobId, a: AttemptId, now: Time, worlds: seq<World>, w: World): Service {
    if a >= |s.store.attempts| then s
    else
      var (tried, outcome) := ScheduleAttempt(Do(s, FailOne(j, a, now)), j, now, worlds, w);
      if outcome == Scheduled then tried else GiveUp(tried, j, a, now)
  }

  ghost function HandleFailure(s: Service, n: NodeId, j: JobId, a: AttemptId, transient: bool, now: Time,
                               worlds: seq<World>, w: World): Service
  {
    var cleared := ClearActive(s, n);
    if transient && MayRetry(cleared, j) then Retried(PrepareRetry(cleared, j, n), j, a, now, worlds, w)
    else GiveUp(cleared, j, a, now)
  }

  /** A check is due within thirty seconds, and within the synchronous timeout where that is set and shorter. */
  function VerificationDeadline(w: World): (t: Time)
    ensures w.now < t <= w.now + VERIFICATION_TIME && (w.syncTimeout > 0 ==> t <= w.now + w.syncTimeout)
  {
    w.now + if 0 < w.syncTimeout < VERIFICATION_TIME then w.syncTimeout else VERIFICATION_TIME
  }

  /** What a node reports as completed. */
  datatype Report = Report(job: JobId, attempt: AttemptId, payload: Metering.Payload)

  function CompletionOf(r: Report): Completion {
    Completion(r.job, r.attempt, Metering.UsageOf(r.payload))
  }

  /** The content of the reported message, when there is one. */
  function ContentOf(r: Report): string {
    if r.payload.message.Some? then r.payload.message.value.content else ""
  }

  /** What a job's completion is checked against: the request of its run or, when the run is gone, an empty one. */
  function UsedRequest(s: Service, j: JobId): Metering.Request {
    if j in s.runs then s.runs[j].request else Metering.NO_REQUEST
  }

  ghost function OfferCheck(s: Service, n: NodeId, producer: NodeId, r: Report, request: Metering.Request,
                            w: World): Service
  {
    if r.job >= |s.store.jobs| then s
    else
      var a := |s.store.attempts|;
      var created := Do(s, OfferVerification(r.job, n, LeaseEnd(w), VerificationDeadline(w), w.storedAt));
      if w.delivered then
        created.(active := created.active[n := ActiveJob(r.job, a)],
                 duplicates := created.duplicates[a := Duplicate(r.job, r.attempt, producer, request, ContentOf(r))])
      else
        Do(created, VerifyFailed(r.job, a, w.now))
          .(active := created.active - {n}, duplicates := created.duplicates - {a})
  }

  ghost function StartDuplicate(s: Service, producer: NodeId, r: Report, request: Metering.Request, w: World): Service {
    match Choose(Filter(s.store.attempts, s.sessions, s.active, {producer}, w.candidates), w.preference)
    case None => s
    case Some(chosen) => OfferCheck(s, chosen.node, producer, r, request, w)
  }

  /** What the coordinator finds out about a completion by itself: signature and hashes, and sampling. */
  datatype Findings = Findings(verified: bool, sampled: bool)

  /** The duplicate is plausible for the request of the job it checks. */
  predicate Plausible(dup: Duplicate, r: Report) {
    Metering.Plausible(dup.request, r.payload)
  }

  /** What a duplicate's completion makes of its verification attempt: verified when plausible and the same text. */
  function Verdict(dup: Duplicate, r: Report, verified: bool, now: Time): (step: Step)
    ensures step.Verify? <==> verified && Plausible(dup, r) && ContentOf(r) == dup.expected
    ensures step.Verify? || step.VerifyFailed?
  {
    if verified && Plausible(dup, r) && ContentOf(r) == dup.expected
    then Verify(r.job, r.attempt, now) else VerifyFailed(r.job, r.attempt, now)
  }

  ghost function HandleDuplicateCompletion(s: Service, n: NodeId, r: Report, verified: bool, now: Time, creditHold: int,
                                           prices: Option<Prices>): Service
    requires r.attempt in s.duplicates
  {
    var dup := s.duplicates[r.attempt];
    var marked := Do(ClearActive(RemoveDuplicate(s, r.attempt), n), Verdict(dup, r, verified, now));
    if verified && r.attempt < |s.store.attempts| && Plausible(dup, r)
    then Do(marked, PostOverhead(CompletionOf(r), now, creditHold, prices))
    else marked
  }

  /** A verified, plausible completion: bill it and, when sampled, have it checked. */
  ghost function Finished(s: Service, n: NodeId, r: Report, sampled: bool, now: Time, creditHold: int,
                          prices: Option<Prices>, w: World): Service
  {
    var c := CompletionOf(r);
    var completed := ClearActive(Do(s, Complete(c, now, creditHold, prices)), n);
    if CompleteJob(s.store, c, now, creditHold, prices).Err? then completed
    else if r.job in s.runs && sampled then RemoveRun(StartDuplicate(completed, n, r, s.runs[r.job].request, w), r.job)
    else RemoveRun(completed, r.job)
  }

  ghost function HandleCompletion(s: Service, n: NodeId, r: Report, f: Findings, now: Time, creditHold: int,
                                  prices: Option<Prices>, w: World): Service
  {
    if r.attempt in s.duplicates then HandleDuplicateCompletion(s, n, r, f.verified, now, creditHold, prices)
    else if f.verified && Metering.Plausible(UsedRequest(s, r.job), r.payload)
    then Finished(s, n, r, f.sampled, now, creditHold, prices, w)
    else RemoveRun(Do(ClearActive(s, n), FailWhole(r.job, Some(r.attempt), now)), r.job)
  }

  ghost function HandleRefusal(s: Service, n: NodeId, j: JobId, a: AttemptId, retryable: bool, now: Time,
                               worlds: seq<World>, w: World): Service
  {
    if a in s.duplicates then Do(ClearActive(RemoveDuplicate(s, a), n), VerifyFailed(j, a, now))
    else HandleFailure(s, n, j, a, retryable, now, worlds, w)
  }

  ghost function HandleDetach(s: Service, n: NodeId, session: SessionId, now: Time, worlds: seq<World>,
                              w: World): Service
  {
    if n !in s.sessions || s.sessions[n] != session then s
    else
      var gone := s.(sessions := s.sessions - {n}, active := s.active - {n});
      if n in s.active then HandleFailure(gone, n, s.active[n].job, s.active[n].attempt, true, now, worlds, w)
      else gone
  }

  function Registered(s: Service, org: OrgId, request: Metering.Request, deadline: Time): Service {
    s.(store := CreateJob(s.store, org, request), runs := s.runs[|s.store.jobs| := RunState(request, deadline, {}, 0)])
  }

  /** A synchronous request: create the job, schedule it, and drop it when that fails. */
  ghost function HandleChat(s: Service, org: OrgId, request: Metering.Request, deadline: Time, now: Time,
                            worlds: seq<World>, w: World): Service
  {
    var j := |s.store.jobs|;
    var (tried, outcome) := ScheduleAttempt(Registered(s, org, request, deadline), j, now, worlds, w);
    if outcome == Scheduled then tried
    else if outcome == NoCapacity then Do(RemoveRun(tried, j), FailWhole(j, None, now))
    else RemoveRun(tried, j)
  }

  datatype Event =
    | Attach(node: NodeId, session: SessionId)
    | Detach(node: NodeId, session: SessionId, now: Time, worlds: seq<World>, world: World)
    | Chat(org: OrgId, request: Metering.Request, deadline: Time, now: Time, worlds: seq<World>, world: World)
    | AsyncJob(org: OrgId, request: Metering.Request)
    | WaitTimeout(job: JobId, now: Time)
    | SaysAccepted(node: NodeId, job: JobId, attempt: AttemptId, now: Time)
    | SaysStarted(node: NodeId, job: JobId, attempt: AttemptId)
    | SaysRejected(node: NodeId, job: JobId, attempt: AttemptId, retryable: bool, now: Time, worlds: seq<World>,
      world: World)
    | SaysFailed(node: NodeId, job: JobId, attempt: AttemptId, retryable: bool, now: Time, worlds: seq<World>,
      world: World)
    | SaysCompleted(node: NodeId, report: Report, findings: Findings, now: Time, creditHold: int,
      prices: Option<Prices>, world: World)
    | ClientCancels(org: OrgId, job: JobId)
    | OperatorCancels(job: JobId, now: Time)
    | OperatorRetries(job: JobId)
    | PayoutStep(step: LedgerRuns.Step)

  /** Events handled by one store transaction alone. */
  predicate IsPlain(e: Event) {
    e.AsyncJob? || e.SaysAccepted? || e.SaysStarted? || e.ClientCancels? || e.OperatorCancels? || e.OperatorRetries?
      || e.PayoutStep?
  }

  function PlainStep(e: Event): Step
    requires IsPlain(e)
  {
    match e
    case AsyncJob(org, request) => NewJob(org, request)
    case SaysAccepted(_, j, a, now) => Accept(j, a, now)
    case SaysStarted(_, j, a) => Start(j, a)
    case ClientCancels(org, j) => Cancel(org, j)
    case OperatorCancels(j, now) => OpCancel(j, now)
    case OperatorRetries(j) => OpRetry(j)
    case PayoutStep(step) => Payouts(step)
  }

  ghost predicate CanHappen(s: Service, e: Event) {
    IsPlain(e) ==> Possible(s.store, PlainStep(e))
  }

  ghost function Handle(s: Service, e: Event): Service
    requires CanHappen(s, e)
  {
    if IsPlain(e) then Do(s, PlainStep(e))
    else
      match e
      case Attach(n, session) => s.(sessions := s.sessions[n := session])
      case Detach(n, session, now, worlds, w) => HandleDetach(s, n, session, now, worlds, w)
      case Chat(org, request, deadline, now, worlds, w) => HandleChat(s, org, request, deadline, now, worlds, w)
      case WaitTimeout(j, now) => Do(RemoveRun(s, j), FailWhole(j, None, now))
      case SaysRejected(n, j, a, retryable, now, worlds, w) => HandleRefusal(s, n, j, a, retryable, now, worlds, w)
      case SaysFailed(n, j, a, retryable, now, worlds, w) => HandleRefusal(s, n, j, a, retryable, now, worlds, w)
      case SaysCompleted(n, r, f, now, hold, prices, w) => HandleCompletion(s, n, r, f, now, hold, prices, w)
  }

  ghost predicate Moves(s: Service, e: Event, s': Service) {
    CanHappen(s, e) && s' == Handle(s, e)
  }

  ghost predicate IsHistory(states: seq<Service>, events: seq<Event>) {
    && |states| == |events| + 1
    && states[0] == IDLE
    && forall k: nat | k < |events| :: EventAt(states, events, k)
  }

  ghost predicate EventAt(states: seq<Service>, events: seq<Event>, k: nat)
    requires |states| == |events| + 1 && k < |events|
  {
    Moves(states[k], events[k], states[k + 1])
  }

  /** The message names an attempt of its own job; strictly, it also comes from that attempt's node. */
  predicate Addressed(strict: bool, s: Service, n: NodeId, j: JobId, a: AttemptId) {
    Names(s.store, j, a) && (strict ==> s.store.attempts[a].node == n)
  }

  predicate WellAddressed(strict: bool, s: Service, e: Event) {
    match e
    case SaysAccepted(n, j, a, _) => Addressed(strict, s, n, j, a)
    case SaysStarted(n, j, a) => Addressed(strict, s, n, j, a)
    case SaysRejected(n, j, a, _, _, _, _) => Addressed(strict, s, n, j, a)
    case SaysFailed(n, j, a, _, _, _, _) => Addressed(strict, s, n, j, a)
    case SaysCompleted(n, r, _, _, _, _, _) => Addressed(strict, s, n, r.job, r.attempt)
    case _ => true
  }
}
