/**
 What becomes of a job: of a request when some node is free and when none is, of a failure that may be
 retried and one that may not, of an expired offer, and of a completion.
 */
module DispatchFates {
  import opened Options
  import opened Charges
  import opened Jobs
  import opened JobsBilling
  import opened Dispatch
  import opened DispatchAttempts
  import opened DispatchTries
  import DispatchInstances
  import Metering

  // ---------------------------------------------------------------- one offer

  ghost predicate AnyUsable(s: Service, excluded: set<NodeId>, candidates: seq<Candidate>) {
    exists i | 0 <= i < |candidates| :: Usable(s.store.attempts, s.sessions, s.active, excluded, candidates[i])
  }

  /** A usable node is connected by that session, has no attempt in progress, and is neither reserved nor excluded. */
  lemma UsableIff(s: Service, excluded: set<NodeId>, c: Candidate)
    ensures Usable(s.store.attempts, s.sessions, s.active, excluded, c) <==>
            && c.node in s.sessions.Keys - s.active.Keys - excluded && s.sessions[c.node] == c.session
            && forall a | 0 <= a < |s.store.attempts| && s.store.attempts[a].node == c.node ::
                 s.store.attempts[a].status in {Succeeded, Verified, Expired, Cancelled, Failed}
  {
  }

  /** What an offer made at `now` leaves of a lease's configured length: ten seconds where none is configured. */
  function LeaseLength(leaseTTL: int): int {
    if leaseTTL > 0 then leaseTTL else 10_000_000_000
  }

  /** A row of this kind and status for job j on node n, as the world times it. */
  predicate OfferRow(row: Attempt, j: JobId, n: NodeId, kind: Kind, status: Status, deadline: Time, w: World) {
    && row.job == j && row.node == n && row.kind == kind && row.status == status && row.acceptedAt.None?
    && row.createdAt == w.storedAt && row.deadlineAt == deadline
    && row.leaseExpiresAt - w.now == LeaseLength(w.leaseTTL)
  }

  /** Only job j's state and the appended attempt are new in the store. */
  ghost predicate AddsOffer(s: State, s': State, j: JobId, state: JobState) {
    && |s'.attempts| == |s.attempts| + 1 && s.attempts <= s'.attempts
    && j < |s.jobs| && s'.jobs == s.jobs[j := s.jobs[j].(state := state)]
    && s'.results == s.results && s'.ledger == s.ledger
  }

  /** The offer is out: row, reservation and count. */
  ghost predicate Offered(s: Service, s': Service, j: JobId, n: NodeId, w: World) {
    && j in s.runs && AddsOffer(s.store, s'.store, j, Leased)
    && OfferRow(s'.store.attempts[|s.store.attempts|], j, n, Standard, Status.Offered, s.runs[j].deadline, w)
    && s'.runs == s.runs[j := s.runs[j].(attempts := s.runs[j].attempts + 1)]
    && s'.active == s.active[n := ActiveJob(j, |s.store.attempts|)]
    && s'.sessions == s.sessions && s'.duplicates == s.duplicates
  }

  /** The offer could not be delivered: the row is a failed one, the job waits again, the node is free. */
  ghost predicate Undelivered(s: Service, s': Service, j: JobId, n: NodeId, w: World) {
    && j in s.runs && AddsOffer(s.store, s'.store, j, Queued)
    && OfferRow(s'.store.attempts[|s.store.attempts|], j, n, Standard, Failed, s.runs[j].deadline, w)
    && s'.runs == s.runs[j := s.runs[j].(attempts := s.runs[j].attempts + 1)]
    && s'.active == s.active - {n} && s'.sessions == s.sessions && s'.duplicates == s.duplicates
  }

  /**
   A run is offered to some usable candidate if there is one, and to nobody if there is none; the
   offer is out if it was delivered, and taken back if not.
   */
  lemma ScheduleFate(s: Service, j: JobId, w: World) returns (c: Candidate)
    requires j in s.runs && j < |s.store.jobs|
    ensures var (s', outcome), any := ScheduleInternal(s, j, w), AnyUsable(s, s.runs[j].excluded, w.candidates);
            && (outcome == NoCapacity <==> !any) && (outcome == Scheduled <==> any && w.delivered)
            && (!any ==> s' == s)
            && (any ==> c in w.candidates && Usable(s.store.attempts, s.sessions, s.active, s.runs[j].excluded, c))
            && (any && w.delivered ==> Offered(s, s', j, c.node, w))
            && (any && !w.delivered ==> Undelivered(s, s', j, c.node, w))
  {
    var filtered := Filter(s.store.attempts, s.sessions, s.active, s.runs[j].excluded, w.candidates);
    var choice := Choose(filtered, w.preference);
    if choice.None? {
      c := Candidate(0, 0);
    } else {
      c := choice.value;
      OfferFate(s, j, c.node, w);
    }
  }

  lemma OfferFate(s: Service, j: JobId, n: NodeId, w: World)
    requires j in s.runs && j < |s.store.jobs|
    ensures var (s', outcome) := OfferTo(s, j, n, w);
            if w.delivered then outcome == Scheduled && Offered(s, s', j, n, w)
            else outcome == Broke && Undelivered(s, s', j, n, w)
  {
    AnyState(s.store.jobs[j].state);
    var rows := s.store.attempts;
    var row := NewAttempt(j, n, Standard, LeaseEnd(w), s.runs[j].deadline, w.storedAt);
    var failed := FailRow(row, w.now);
    assert (rows + [row])[|rows| := failed] == rows + [failed];
  }

  // ---------------------------------------------------------------- giving up

  /** The job is failed, the attempt too if it is the job's, and nothing else in the store has changed. */
  ghost predicate FailedIn(s: State, s': State, j: JobId, a: AttemptId, now: Time) {
    && s'.jobs == (if j < |s.jobs| then s.jobs[j := s.jobs[j].(state := Broken)] else s.jobs)
    && s'.attempts == (if Names(s, j, a) then s.attempts[a := s.attempts[a].(status := Failed, finishedAt := Some(now))]
                       else s.attempts)
    && s'.results == s.results && s'.ledger == s.ledger
  }

  /** The job is failed and its run gone; everything else is as it was. */
  ghost predicate GivenUp(s: Service, s': Service, j: JobId, a: AttemptId, now: Time) {
    && FailedIn(s.store, s'.store, j, a, now) && s'.runs == s.runs - {j}
    && s'.sessions == s.sessions && s'.active == s.active && s'.duplicates == s.duplicates
  }

  lemma GiveUpFate(s: Service, j: JobId, a: AttemptId, now: Time)
    requires a < |s.store.attempts|
    ensures GivenUp(s, GiveUp(s, j, a, now), j, a, now)
  {
    if j < |s.store.jobs| {
      AnyState(s.store.jobs[j].state);
    }
  }

  /**
   A failure report, a refusal or a lost session that may not be retried, because it is final, the job
   has no run, or the run has been tried twice: the node is free, the job failed, the attempt failed
   and the run gone.
   */
  lemma FinalFailureFate(s: Service, e: Event, after: Service)
    requires Moves(s, e, after) && FailureOf(s, e).Some? && FailureOf(s, e).value.attempt < |s.store.attempts|
    requires var f := FailureOf(s, e).value; !(f.transient && f.job in s.runs && s.runs[f.job].attempts < 2)
    ensures var f := FailureOf(s, e).value;
            GivenUp(f.base.(active := f.base.active - {f.node}), after, f.job, f.attempt, f.now)
  {
    var f := FailureOf(s, e).value;
    GiveUpFate(ClearActive(f.base, f.node), f.job, f.attempt, f.now);
  }

  /** Where a retry starts: the attempt failed, the job waiting, its node excluded and free. */
  ghost predicate Readied(s: Service, s': Service, n: NodeId, j: JobId, a: AttemptId, now: Time) {
    && j in s.runs && s'.runs == s.runs[j := s.runs[j].(excluded := s.runs[j].excluded + {n})]
    && s'.active == s.active - {n} && s'.sessions == s.sessions && s'.duplicates == s.duplicates
    && s'.store.results == s.store.results && s'.store.ledger == s.store.ledger
    && s'.store.attempts == (if Names(s.store, j, a) && Active(s.store.attempts[a].status)
                             then s.store.attempts[a := s.store.attempts[a].(status := Failed, finishedAt := Some(now))]
                             else s.store.attempts)
    && s'.store.jobs == (if j < |s.store.jobs| && s.store.jobs[j].state in {Leased, Started}
                         then s.store.jobs[j := s.store.jobs[j].(state := Queued)] else s.store.jobs)
  }

  /**
   One that may be retried: with its attempt failed and its node excluded, leases are handled; then the
   job is offered to some usable candidate, or it is failed and its run gone.
   */
  lemma RetriedFate(s: Service, e: Event, after: Service) returns (ready: Service, mid: Service, c: Candidate)
    requires Moves(s, e, after) && FailureOf(s, e).Some? && Retries(FailureOf(s, e).value)
    requires forall i: JobId :: Counted(s, i)
    ensures var f := FailureOf(s, e).value;
            && Readied(f.base, ready, f.node, f.job, f.attempt, f.now)
            && mid == ExpireAndRetry(ready, f.now, f.worlds)
            && TriedAgain(mid, after, f.job, f.attempt, f.now, f.world, c)
  {
    var f := FailureOf(s, e).value;
    ready := DispatchTries.Failed(f);
    mid := ExpireAndRetry(ready, f.now, f.worlds);
    ReadiedRows(f, ready);
    forall i: JobId ensures Counted(f.base, i) {
      assert Counted(s, i);
    }
    CountedAfter(f, ready, mid);
    AttemptsStay(ready, f.now, f.worlds, mid);
    assert Counted(mid, f.job);
    c := TriedAgainFate(mid, f.job, f.attempt, f.now, f.world);
  }

  lemma ReadiedRows(f: Failure, ready: Service)
    requires Retries(f) && ready == DispatchTries.Failed(f)
    ensures Readied(f.base, ready, f.node, f.job, f.attempt, f.now)
  {
  }

  /** Out to a usable candidate; or failed and the run gone, at once or after an offer that was not delivered. */
  ghost predicate TriedAgain(mid: Service, after: Service, j: JobId, a: AttemptId, now: Time, w: World, c: Candidate) {
    var any := j in mid.runs && AnyUsable(mid, mid.runs[j].excluded, w.candidates);
    && (any ==> c in w.candidates && Usable(mid.store.attempts, mid.sessions, mid.active, mid.runs[j].excluded, c))
    && (any && w.delivered ==> Offered(mid, after, j, c.node, w))
    && (!any ==> GivenUp(mid, after, j, a, now))
    && (any && !w.delivered ==>
          exists tried: Service :: Undelivered(mid, tried, j, c.node, w) && GivenUp(tried, after, j, a, now))
  }

  lemma TriedAgainFate(mid: Service, j: JobId, a: AttemptId, now: Time, w: World) returns (c: Candidate)
    requires a < |mid.store.attempts| && Counted(mid, j)
    ensures var (tried, outcome) := ScheduleInternal(mid, j, w);
            TriedAgain(mid, if outcome == Scheduled then tried else GiveUp(tried, j, a, now), j, a, now, w, c)
  {
    var (tried, outcome) := ScheduleInternal(mid, j, w);
    c := Candidate(0, 0);
    if j in mid.runs {
      c := ScheduleFate(mid, j, w);
    }
    if outcome != Scheduled {
      GiveUpFate(tried, j, a, now);
    }
  }

  /** Handling leases takes no attempt away. */
  lemma AttemptsStay(s: Service, now: Time, worlds: seq<World>, mid: Service)
    requires (forall i: JobId :: Counted(s, i)) && mid == ExpireAndRetry(s, now, worlds)
    ensures |mid.store.attempts| >= |s.store.attempts|
  {
    LeasesHandled(s, now, worlds, 0, mid);
  }

  /** The service an expired offer is retried from: its node free and, where there is a run, excluded. */
  function Reopened(s: Service, j: JobId, n: NodeId): Service {
    var free := s.(active := s.active - {n});
    if j in s.runs && s.runs[j].attempts < 2
    then free.(runs := s.runs[j := s.runs[j].(excluded := s.runs[j].excluded + {n})])
    else free
  }

  /**
   An expired offer: its node is free; the job is offered to some usable candidate on another node if
   its run may be tried again and there is one; otherwise it is failed and its run gone.
   */
  lemma ExpiredFate(s: Service, a: AttemptId, w: World, now: Time) returns (c: Candidate)
    requires a < |s.store.attempts| && Counted(s, s.store.attempts[a].job)
    ensures var s', j, n := HandleExpired(s, a, w, now), s.store.attempts[a].job, s.store.attempts[a].node;
            var open := Reopened(s, j, n);
            var any := j in s.runs && s.runs[j].attempts < 2 && AnyUsable(open, open.runs[j].excluded, w.candidates);
            && (any ==> c in w.candidates && c.node != n && c.node !in s.runs[j].excluded)
            && (!(j in s.runs && s.runs[j].attempts < 2) ==> GivenUp(open, s', j, a, now))
            && (j in s.runs && s.runs[j].attempts < 2 ==> TriedAgain(open, s', j, a, now, w, c))
  {
    var j, n := s.store.attempts[a].job, s.store.attempts[a].node;
    var cleared := ClearActive(s, n);
    c := Candidate(0, 0);
    if MayRetry(cleared, j) {
      c := TriedAgainFate(PrepareRetry(cleared, j, n), j, a, now, w);
    } else {
      GiveUpFate(cleared, j, a, now);
    }
  }

  // ---------------------------------------------------------------- leases of other jobs

  /** Job j's own row is as it was. */
  ghost predicate JobKept(s: State, s': State, j: JobId) {
    |s'.jobs| >= |s.jobs| && (j < |s.jobs| ==> s'.jobs[j] == s.jobs[j])
  }

  lemma ScheduleKeepsJob(s: Service, i: JobId, w: World, j: JobId)
    requires i != j
    ensures JobKept(s.store, ScheduleInternal(s, i, w).0.store, j)
  {
  }

  lemma ExpiredKeepsJob(s: Service, a: AttemptId, w: World, now: Time, j: JobId)
    requires a < |s.store.attempts| && s.store.attempts[a].job != j
    ensures JobKept(s.store, HandleExpired(s, a, w, now).store, j)
  {
    var i, n := s.store.attempts[a].job, s.store.attempts[a].node;
    var cleared := ClearActive(s, n);
    if MayRetry(cleared, i) {
      ScheduleKeepsJob(PrepareRetry(cleared, i, n), i, w, j);
    }
  }

  lemma {:induction false} AllExpiredKeepJob(s: Service, ids: seq<AttemptId>, worlds: seq<World>, now: Time, j: JobId,
                                             after: Service)
    requires forall k | 0 <= k < |ids| :: ids[k] < |s.store.attempts| && s.store.attempts[ids[k]].job != j
    requires after == HandleAllExpired(s, ids, worlds, now)
    ensures JobKept(s.store, after.store, j)
  {
    if ids != [] {
      var k := |ids| - 1;
      var before := HandleAllExpired(s, ids[..k], worlds, now);
      AllExpiredKeepJob(s, ids[..k], worlds, now, j, before);
      AllExpiredSpareOthers(s, ids[..k], worlds, now, j, before);
      assert SameAttempt(s.store.attempts[ids[k]], before.store.attempts[ids[k]]);
      ExpiredKeepsJob(before, ids[k], WorldAt(worlds, k), now, j);
    }
  }

  /** Handling leases leaves a job without offers alone: its row, its run and its attempts. */
  lemma LeasesLeaveAlone(s: Service, now: Time, worlds: seq<World>, j: JobId, mid: Service)
    requires mid == ExpireAndRetry(s, now, worlds)
    requires forall a | 0 <= a < |s.store.attempts| :: s.store.attempts[a].job != j
    ensures Untouched(s, mid, j) && JobKept(s.store, mid.store, j)
  {
    var expired, ids := Do(s, Expire(now)), ExpiredIds(s.store.attempts, now);
    StepUntouched(s, Expire(now), expired, j);
    forall k | 0 <= k < |ids| ensures expired.store.attempts[ids[k]].job != j {
      assert SameAttempt(s.store.attempts[ids[k]], expired.store.attempts[ids[k]]);
    }
    AllExpiredSpareOthers(expired, ids, worlds, now, j, mid);
    AllExpiredKeepJob(expired, ids, worlds, now, j, mid);
    UntouchedTwice(s, expired, mid, j);
  }

  // ---------------------------------------------------------------- a synchronous request

  /** Nothing but the named attempt belongs to job j. */
  ghost predicate OnlyAttemptOf(store: State, j: JobId, a: AttemptId) {
    forall b | 0 <= b < |store.attempts| && b != a :: store.attempts[b].job != j
  }

  /** No attempt belongs to job j. */
  ghost predicate NoAttemptOf(store: State, j: JobId) {
    forall b | 0 <= b < |store.attempts| :: store.attempts[b].job != j
  }

  /** The request's job has failed: no run, no attempt. */
  ghost predicate TurnedAway(s: Service, j: JobId) {
    && j < |s.store.jobs| && s.store.jobs[j].state == Broken && j !in s.runs && NoAttemptOf(s.store, j)
  }

  /** It is leased: one attempt, offered on this node, and a run that counts it. */
  ghost predicate OutTo(s: Service, j: JobId, a: AttemptId, n: NodeId, e: Event)
    requires e.Chat?
  {
    && j < |s.store.jobs| && s.store.jobs[j].state == Leased && j in s.runs
    && s.runs[j] == RunState(e.request, e.deadline, {}, 1)
    && a < |s.store.attempts| && OnlyAttemptOf(s.store, j, a)
    && OfferRow(s.store.attempts[a], j, n, Standard, Status.Offered, e.deadline, e.world)
    && n in s.active && s.active[n] == ActiveJob(j, a)
  }

  /** It waits with no run, its one attempt a failed one. */
  ghost predicate Stranded(s: Service, j: JobId, a: AttemptId, n: NodeId, e: Event)
    requires e.Chat?
  {
    && j < |s.store.jobs| && s.store.jobs[j].state == Queued && j !in s.runs
    && a < |s.store.attempts| && OnlyAttemptOf(s.store, j, a)
    && OfferRow(s.store.attempts[a], j, n, Standard, Failed, e.deadline, e.world) && n !in s.active
  }

  /**
   The fate of a request, once overdue leases are handled: failed if no candidate is usable; out to a
   usable candidate if there is one and the offer is delivered; waiting with no run if it is not.
   */
  lemma ChatFate(s: Service, e: Event, mid: Service, s': Service) returns (c: Candidate)
    requires e.Chat? && s' == HandleChat(s, e.org, e.request, e.deadline, e.now, e.worlds, e.world)
    requires mid == ExpireAndRetry(Registered(s, e.org, e.request, e.deadline), e.now, e.worlds)
    requires Unused(s, |s.store.jobs|)
    ensures var j, any := |s.store.jobs|, AnyUsable(mid, {}, e.world.candidates);
            && (any ==> c in e.world.candidates && Usable(mid.store.attempts, mid.sessions, mid.active, {}, c))
            && (TurnedAway(s', j) <==> !any)
            && (OutTo(s', j, |mid.store.attempts|, c.node, e) <==> any && e.world.delivered)
            && (Stranded(s', j, |mid.store.attempts|, c.node, e) <==> any && !e.world.delivered)
  {
    var j := |s.store.jobs|;
    var registered := Registered(s, e.org, e.request, e.deadline);
    LeasesLeaveAlone(registered, e.now, e.worlds, j, mid);
    NoneOfMine(registered, mid, j);
    assert mid.runs[j] == RunState(e.request, e.deadline, {}, 0);
    c := ScheduleFate(mid, j, e.world);
    var (tried, outcome) := ScheduleInternal(mid, j, e.world);
    if !AnyUsable(mid, {}, e.world.candidates) {
      AnyState(mid.store.jobs[j].state);
    } else if e.world.delivered {
      ChatIsOut(mid, tried, j, c.node, e);
    } else {
      ChatIsStranded(mid, tried, j, c.node, e);
    }
  }

  lemma ChatIsOut(mid: Service, s': Service, j: JobId, n: NodeId, e: Event)
    requires e.Chat? && Offered(mid, s', j, n, e.world) && NoAttemptOf(mid.store, j)
    requires mid.runs[j] == RunState(e.request, e.deadline, {}, 0)
    ensures OutTo(s', j, |mid.store.attempts|, n, e)
  {
    TakenOut(mid, s', j);
  }

  lemma ChatIsStranded(mid: Service, tried: Service, j: JobId, n: NodeId, e: Event)
    requires e.Chat? && Undelivered(mid, tried, j, n, e.world) && NoAttemptOf(mid.store, j)
    requires mid.runs[j] == RunState(e.request, e.deadline, {}, 0)
    ensures Stranded(RemoveRun(tried, j), j, |mid.store.attempts|, n, e)
  {
    TakenOut(mid, tried, j);
  }

  lemma NoneOfMine(s: Service, s': Service, j: JobId)
    requires Untouched(s, s', j) && NoAttemptOf(s.store, j)
    ensures NoAttemptOf(s'.store, j)
  {
    forall b | 0 <= b < |s'.store.attempts| ensures s'.store.attempts[b].job != j {
      if b < |s.store.attempts| {
        assert SameAttempt(s.store.attempts[b], s'.store.attempts[b]);
      }
    }
  }

  lemma TakenOut(s: Service, s': Service, j: JobId)
    requires NoAttemptOf(s.store, j) && |s'.store.attempts| == |s.store.attempts| + 1
             && s.store.attempts <= s'.store.attempts
    ensures OnlyAttemptOf(s'.store, j, |s.store.attempts|)
  {
  }

  /** With no lease overdue, the candidates are judged by the service as the request finds it. */
  lemma ChatFateAtOnce(s: Service, e: Event, s': Service) returns (c: Candidate)
    requires e.Chat? && s' == HandleChat(s, e.org, e.request, e.deadline, e.now, e.worlds, e.world)
    requires Unused(s, |s.store.jobs|)
    requires forall a | 0 <= a < |s.store.attempts| :: !LeaseOver(s.store.attempts[a], e.now)
    ensures var j, any := |s.store.jobs|, AnyUsable(s, {}, e.world.candidates);
            && (any ==> c in e.world.candidates && Usable(s.store.attempts, s.sessions, s.active, {}, c))
            && (TurnedAway(s', j) <==> !any)
            && (OutTo(s', j, |s.store.attempts|, c.node, e) <==> any && e.world.delivered)
            && (Stranded(s', j, |s.store.attempts|, c.node, e) <==> any && !e.world.delivered)
  {
    var registered := Registered(s, e.org, e.request, e.deadline);
    DispatchInstances.NothingExpires(registered, e.now);
    assert ExpireAndRetry(registered, e.now, e.worlds) == registered;
    c := ChatFate(s, e, registered, s');
  }

  /** In every history. */
  lemma ChatFateInHistory(states: seq<Service>, events: seq<Event>, k: nat, mid: Service) returns (c: Candidate)
    requires IsHistory(states, events) && k < |events| && events[k].Chat?
    requires var e := events[k];
             mid == ExpireAndRetry(Registered(states[k], e.org, e.request, e.deadline), e.now, e.worlds)
    ensures var s', e, j := states[k + 1], events[k], |states[k].store.jobs|;
            var any := AnyUsable(mid, {}, e.world.candidates);
            && (any ==> c in e.world.candidates && Usable(mid.store.attempts, mid.sessions, mid.active, {}, c))
            && (TurnedAway(s', j) <==> !any)
            && (OutTo(s', j, |mid.store.attempts|, c.node, e) <==> any && e.world.delivered)
            && (Stranded(s', j, |mid.store.attempts|, c.node, e) <==> any && !e.world.delivered)
  {
    assert EventAt(states, events, k);
    KeptInEveryHistory(states, events, k, |states[k].store.jobs|);
    c := ChatFate(states[k], events[k], mid, states[k + 1]);
  }

  /** A request whose wait is over: the job has failed and has no run, and its attempts are left to themselves. */
  lemma TimeoutFate(s: Service, j: JobId, now: Time)
    ensures var s' := Handle(s, WaitTimeout(j, now));
            && s'.runs == s.runs - {j} && s'.active == s.active && s'.sessions == s.sessions
            && s'.duplicates == s.duplicates && s'.store.attempts == s.store.attempts
            && s'.store.results == s.store.results && s'.store.ledger == s.store.ledger
            && s'.store.jobs
               == (if j < |s.store.jobs| then s.store.jobs[j := s.store.jobs[j].(state := Broken)] else s.store.jobs)
  {
    if j < |s.store.jobs| {
      AnyState(s.store.jobs[j].state);
    }
  }

  // ---------------------------------------------------------------- completions

  /** The work a report claims. */
  function Claimed(r: Report): Completion {
    Completion(r.job, r.attempt, Usage(r.payload.prompt, r.payload.completion))
  }

  /** The report's message says this. */
  predicate Says(r: Report, content: string) {
    r.payload.message.Some? && r.payload.message.value.content == content
  }

  /** The result is in: job done, attempt succeeded, one result more, and the run gone. */
  ghost predicate CompletedIn(s: State, s': State, c: Completion, at: Time) {
    && Names(s, c.job, c.attempt) && c.job < |s.jobs|
    && s'.jobs == s.jobs[c.job := s.jobs[c.job].(state := Done)]
    && |s'.attempts| >= |s.attempts|
    && s'.attempts[..|s.attempts|]
       == s.attempts[c.attempt := s.attempts[c.attempt].(status := Succeeded, finishedAt := Some(at))]
    && s'.results == s.results + [ResultRow(c.job, c.attempt, c.usage)]
  }

  /** A check of this report is pending with node n. */
  ghost predicate CheckOut(s: Service, s': Service, producer: NodeId, r: Report, n: NodeId, w: World) {
    && r.job in s.runs && r.payload.message.Some? && |s'.store.attempts| == |s.store.attempts| + 1
    && OfferRow(s'.store.attempts[|s.store.attempts|], r.job, n, Verification, Status.Offered, CheckDue(w), w)
    && s'.duplicates == s.duplicates[|s.store.attempts| :=
         Duplicate(r.job, r.attempt, producer, s.runs[r.job].request, r.payload.message.value.content)]
    && s'.active == (s.active - {producer})[n := ActiveJob(r.job, |s.store.attempts|)]
  }

  /** A check is due thirty seconds after it is offered, or sooner where requests wait for less. */
  function CheckDue(w: World): Time {
    w.now + if 0 < w.syncTimeout < 30_000_000_000 then w.syncTimeout else 30_000_000_000
  }

  /** Nothing is checked: no entry, and only the producer's reservation is gone. */
  predicate NoCheck(s: Service, s': Service, producer: NodeId) {
    && s'.duplicates == s.duplicates && s'.active == s.active - {producer}
    && |s'.store.attempts| == |s.store.attempts|
  }

  /** The check could not be delivered: its attempt is a failed one and nothing is pending. */
  ghost predicate CheckFailed(s: Service, s': Service, producer: NodeId, r: Report, n: NodeId, w: World) {
    && |s'.store.attempts| == |s.store.attempts| + 1
    && OfferRow(s'.store.attempts[|s.store.attempts|], r.job, n, Verification, Failed, CheckDue(w), w)
    && s'.duplicates == s.duplicates - {|s.store.attempts|} && s'.active == s.active - {producer} - {n}
  }

  /**
   A completion that passes its check and is accepted: the job is done and its run gone. It is checked
   in turn if it was sampled, its run was there, and some candidate other than the producer is usable.
   */
  lemma AcceptedFate(s: Service, n: NodeId, r: Report, f: Findings, now: Time, hold: int, prices: Option<Prices>,
                     w: World, s': Service) returns (done: Service, c: Candidate)
    requires r.attempt !in s.duplicates && f.verified && Metering.Plausible(UsedRequest(s, r.job), r.payload)
    requires CompleteJob(s.store, Claimed(r), now, hold, prices).Ok?
    requires s' == HandleCompletion(s, n, r, f, now, hold, prices, w)
    ensures done == s.(store := done.store, active := s.active - {n})
            && CompletedIn(s.store, done.store, Claimed(r), now)
    ensures |done.store.attempts| == |s.store.attempts|
    ensures var any := f.sampled && r.job in s.runs && AnyUsable(done, {n}, w.candidates);
            && CompletedIn(s.store, s'.store, Claimed(r), now)
            && s'.store.ledger == done.store.ledger && s'.sessions == s.sessions && s'.runs == s.runs - {r.job}
            && (any ==> c in w.candidates && c.node != n
                        && Usable(done.store.attempts, done.sessions, done.active, {n}, c))
            && (!any ==> NoCheck(s, s', n))
            && (any && w.delivered ==> CheckOut(s, s', n, r, c.node, w))
            && (any && !w.delivered ==> CheckFailed(s, s', n, r, c.node, w))
  {
    done := ClearActive(Do(s, Complete(CompletionOf(r), now, hold, prices)), n);
    c := Candidate(0, 0);
    CompletedStoreFate(s.store, CompletionOf(r), now, hold, prices);
    if f.sampled && r.job in s.runs {
      c := CheckFate(done, n, r, s.runs[r.job].request, w);
    }
  }

  lemma CompletedStoreFate(s: State, c: Completion, at: Time, hold: int, prices: Option<Prices>)
    requires CompleteJob(s, c, at, hold, prices).Ok?
    ensures var s' := CompleteJob(s, c, at, hold, prices).value;
            CompletedIn(s, s', c, at) && |s'.attempts| == |s.attempts|
  {
    CompletionEffects(s, c, at, hold, prices.value);
    var s' := CompleteJob(s, c, at, hold, prices).value;
    assert s'.attempts[..|s.attempts|] == s'.attempts;
  }

  /** Offering a check, seen from the service once the result is in. */
  lemma CheckFate(s: Service, producer: NodeId, r: Report, request: Metering.Request, w: World) returns (c: Candidate)
    requires r.job < |s.store.jobs|
    ensures var s', any := StartDuplicate(s, producer, r, request, w), AnyUsable(s, {producer}, w.candidates);
            var a := |s.store.attempts|;
            && s'.store == s.store.(attempts := s'.store.attempts) && s'.runs == s.runs && s'.sessions == s.sessions
            && (any ==> c in w.candidates && Usable(s.store.attempts, s.sessions, s.active, {producer}, c))
            && (!any ==> s' == s)
            && (any ==> |s'.store.attempts| == a + 1 && s'.store.attempts[..a] == s.store.attempts)
            && (any && w.delivered ==>
                  && OfferRow(s'.store.attempts[a], r.job, c.node, Verification, Status.Offered, CheckDue(w), w)
                  && s'.duplicates == s.duplicates[a := Duplicate(r.job, r.attempt, producer, request, ContentOf(r))]
                  && s'.active == s.active[c.node := ActiveJob(r.job, a)])
            && (any && !w.delivered ==>
                  && OfferRow(s'.store.attempts[a], r.job, c.node, Verification, Failed, CheckDue(w), w)
                  && s'.duplicates == s.duplicates - {a} && s'.active == s.active - {c.node})
  {
    var choice := Choose(Filter(s.store.attempts, s.sessions, s.active, {producer}, w.candidates), w.preference);
    c := if choice.Some? then choice.value else Candidate(0, 0);
    if choice.Some? {
      var rows := s.store.attempts;
      var row := NewAttempt(r.job, c.node, Verification, LeaseEnd(w), VerificationDeadline(w), w.storedAt);
      assert (rows + [row])[|rows| := FailRow(row, w.now)] == rows + [FailRow(row, w.now)];
    }
  }

  /** A completion the store refuses changes nothing but that its sender is free; the run goes on. */
  lemma RefusedFate(s: Service, n: NodeId, r: Report, f: Findings, now: Time, hold: int, prices: Option<Prices>,
                    w: World)
    requires r.attempt !in s.duplicates && f.verified && Metering.Plausible(UsedRequest(s, r.job), r.payload)
    requires CompleteJob(s.store, Claimed(r), now, hold, prices).Err?
    ensures HandleCompletion(s, n, r, f, now, hold, prices, w) == s.(active := s.active - {n})
  {
  }

  /** One that does not verify, or is not plausible, fails the job and ends its run. */
  lemma ImplausibleFate(s: Service, n: NodeId, r: Report, f: Findings, now: Time, hold: int, prices: Option<Prices>,
                        w: World)
    requires r.attempt !in s.duplicates && !(f.verified && Metering.Plausible(UsedRequest(s, r.job), r.payload))
    ensures var s' := HandleCompletion(s, n, r, f, now, hold, prices, w);
            && s' == s.(store := s'.store, active := s.active - {n}, runs := s.runs - {r.job})
            && (r.attempt < |s.store.attempts| ==> FailedIn(s.store, s'.store, r.job, r.attempt, now))
            && (r.attempt >= |s.store.attempts| ==> s'.store == s.store)
  {
    if r.job < |s.store.jobs| {
      AnyState(s.store.jobs[r.job].state);
    }
  }

  // ---------------------------------------------------------------- verdicts, refusals and lost sessions

  /** Only this attempt's row may have changed: to this status, if it was one of these and is the job's. */
  ghost predicate MarkedIn(s: State, s': State, j: JobId, a: AttemptId, from: set<Status>, to: Status, now: Time) {
    s' == if Names(s, j, a) && s.attempts[a].status in from
          then s.(attempts := s.attempts[a := s.attempts[a].(status := to, finishedAt := Some(now))]) else s
  }

  /**
   A check's completion: the entry is gone and the sender free. The attempt is verified when the
   report verifies, is plausible and says the same; otherwise it is failed. The cost is posted when
   the report verifies and is plausible, whatever it says.
   */
  lemma VerdictFate(s: Service, n: NodeId, r: Report, f: Findings, now: Time, hold: int, prices: Option<Prices>,
                    w: World, s': Service) returns (marked: State)
    requires r.attempt in s.duplicates && s' == HandleCompletion(s, n, r, f, now, hold, prices, w)
    ensures var dup := s.duplicates[r.attempt];
            var plausible := f.verified && Metering.Plausible(dup.request, r.payload);
            && s' == s.(store := s'.store, active := s.active - {n}, duplicates := s.duplicates - {r.attempt})
            && (plausible && Says(r, dup.expected) ==>
                  MarkedIn(s.store, marked, r.job, r.attempt, {Accepted, Running}, Verified, now))
            && (!(plausible && Says(r, dup.expected)) ==>
                  MarkedIn(s.store, marked, r.job, r.attempt, {Status.Offered, Accepted, Running}, Failed, now))
            && (plausible && r.attempt < |s.store.attempts| ==>
                  s'.store == OrElse(PostVerificationOverhead(marked, Claimed(r), now, hold, prices), marked))
            && (!(plausible && r.attempt < |s.store.attempts|) ==> s'.store == marked)
  {
    marked := VerdictMarks(s.store, s.duplicates[r.attempt], r, f.verified, now);
  }

  lemma VerdictMarks(store: State, dup: Duplicate, r: Report, verified: bool, now: Time) returns (marked: State)
    ensures marked == Next(store, Verdict(dup, r, verified, now))
    ensures if verified && Metering.Plausible(dup.request, r.payload) && Says(r, dup.expected)
            then MarkedIn(store, marked, r.job, r.attempt, {Accepted, Running}, Verified, now)
            else MarkedIn(store, marked, r.job, r.attempt, {Status.Offered, Accepted, Running}, Failed, now)
  {
    marked := Next(store, Verdict(dup, r, verified, now));
  }

  /** A refused or failed check: the entry is gone, the sender free, an open attempt failed, the job untouched. */
  lemma CheckRefusedFate(s: Service, n: NodeId, j: JobId, a: AttemptId, retryable: bool, now: Time,
                         worlds: seq<World>, w: World)
    requires a in s.duplicates
    ensures var s' := HandleRefusal(s, n, j, a, retryable, now, worlds, w);
            && s' == s.(store := s'.store, active := s.active - {n}, duplicates := s.duplicates - {a})
            && MarkedIn(s.store, s'.store, j, a, {Status.Offered, Accepted, Running}, Failed, now)
  {
  }

  /** Losing a session that has been replaced changes nothing; losing an idle node's drops just that session. */
  lemma DetachFate(s: Service, n: NodeId, session: SessionId, now: Time, worlds: seq<World>, w: World)
    requires n !in s.sessions || s.sessions[n] != session || n !in s.active
    ensures var s' := HandleDetach(s, n, session, now, worlds, w);
            && s' == s.(sessions := s'.sessions)
            && (n in s'.sessions <==> n in s.sessions && s.sessions[n] != session)
            && (forall m | m != n :: m in s'.sessions <==> m in s.sessions)
            && (forall m | m in s'.sessions :: m in s.sessions && s'.sessions[m] == s.sessions[m])
  {
  }
}
