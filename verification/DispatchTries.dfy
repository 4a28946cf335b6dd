/**
 How often a job is tried, whatever the messages say: never more than three times as a standard
 attempt, and a third time exactly when a failure report overtakes an expired lease.
 */
module DispatchTries {
  import opened Options
  import opened Sums
  import opened Charges
  import opened Jobs
  import opened JobsBilling
  import opened Dispatch
  import opened DispatchExclusive
  import opened DispatchAttempts
  import Metering

  // ---------------------------------------------------------------- what handlers do to one job's count

  /** Rows keep their identity, and new ones belong to jobs there are. */
  ghost predicate Grows(store: State, store': State) {
    && |store'.jobs| >= |store.jobs| && |store'.attempts| >= |store.attempts|
    && (forall a | 0 <= a < |store.attempts| :: SameAttempt(store.attempts[a], store'.attempts[a]))
    && (forall a | |store.attempts| <= a < |store'.attempts| :: store'.attempts[a].job < |store'.jobs|)
  }

  /** The run of job j, if it is still there, was there before, and each attempt more was counted. */
  ghost predicate Tallied(s: Service, s': Service, j: JobId) {
    j in s'.runs ==>
      && j in s.runs && s'.runs[j].attempts >= s.runs[j].attempts
      && Standards(s'.store, j) - s'.runs[j].attempts == Standards(s.store, j) - s.runs[j].attempts
  }

  /** Job j got no standard attempt, or ended up with at most two. */
  ghost predicate Modest(s: Service, s': Service, j: JobId) {
    && Grows(s.store, s'.store) && Tallied(s, s', j)
    && Standards(s.store, j) <= Standards(s'.store, j)
    && (Standards(s'.store, j) == Standards(s.store, j) || Standards(s'.store, j) <= 2)
  }

  /** Job j got this many standard attempts. */
  ghost predicate Gains(s: Service, s': Service, j: JobId, more: nat) {
    Grows(s.store, s'.store) && Tallied(s, s', j) && Standards(s'.store, j) == Standards(s.store, j) + more
  }

  ghost predicate Counted(s: Service, j: JobId) {
    j in s.runs ==> j < |s.store.jobs| && Standards(s.store, j) == s.runs[j].attempts
  }

  lemma GrowsTwice(a: State, b: State, c: State)
    requires Grows(a, b) && Grows(b, c)
    ensures Grows(a, c)
  {
    forall r | 0 <= r < |a.attempts| ensures SameAttempt(a.attempts[r], c.attempts[r]) {
      assert SameAttempt(a.attempts[r], b.attempts[r]) && SameAttempt(b.attempts[r], c.attempts[r]);
    }
    forall r | |a.attempts| <= r < |c.attempts| ensures c.attempts[r].job < |c.jobs| {
      assert r < |b.attempts| ==> SameAttempt(b.attempts[r], c.attempts[r]);
    }
  }

  lemma ModestTwice(s: Service, s': Service, s'': Service, j: JobId)
    requires Modest(s, s', j) && Modest(s', s'', j)
    ensures Modest(s, s'', j)
  {
    GrowsTwice(s.store, s'.store, s''.store);
  }

  lemma GainsTwice(s: Service, s': Service, s'': Service, j: JobId, m: nat, n: nat)
    requires Gains(s, s', j, m) && Gains(s', s'', j, n)
    ensures Gains(s, s'', j, m + n)
  {
    GrowsTwice(s.store, s'.store, s''.store);
  }

  lemma ModestCounted(s: Service, s': Service, j: JobId)
    requires Counted(s, j) && (Modest(s, s', j) || exists more: nat :: Gains(s, s', j, more))
    ensures Counted(s', j)
  {
  }

  /** Standard attempts are counted by the rows that are added. */
  lemma AddedStandards(store: State, store': State, j: JobId)
    requires Grows(store, store')
    ensures Standards(store', j) == Standards(store, j) + Sum(store'.attempts[|store.attempts|..], StandardFor(j))
  {
    var n := |store.attempts|;
    assert store'.attempts == store'.attempts[..n] + store'.attempts[n..];
    SumConcat(store'.attempts[..n], store'.attempts[n..], StandardFor(j));
    forall a | 0 <= a < n ensures StandardFor(j)(store'.attempts[..n][a]) == StandardFor(j)(store.attempts[a]) {
      assert SameAttempt(store.attempts[a], store'.attempts[a]);
    }
    SumSame(store.attempts, store'.attempts[..n], StandardFor(j));
  }

  lemma UntouchedGains(s: Service, s': Service, j: JobId)
    requires Untouched(s, s', j) && Grows(s.store, s'.store)
    ensures Gains(s, s', j, 0) && Modest(s, s', j)
  {
    AddedStandards(s.store, s'.store, j);
    SumZero(s'.store.attempts[|s.store.attempts|..], StandardFor(j));
  }

  lemma StepGrows(store: State, step: Step)
    requires Possible(store, step)
    ensures Grows(store, Next(store, step))
  {
    AttemptsGrow(store, step);
    forall a | 0 <= a < |store.attempts| ensures SameAttempt(store.attempts[a], Next(store, step).attempts[a]) {
      StepRow(store, step, a);
    }
  }

  predicate Tries(store: State, step: Step, j: JobId) {
    step.Offer? && step.job == j && j < |store.jobs|
  }

  /** A store step adds a standard attempt of j exactly when it offers one. */
  lemma StepStandards(store: State, step: Step, j: JobId)
    requires Possible(store, step)
    ensures Grows(store, Next(store, step))
    ensures Standards(Next(store, step), j) == Standards(store, j) + if Tries(store, step, j) then 1 else 0
  {
    StepGrows(store, step);
    AttemptsGrow(store, step);
    var store' := Next(store, step);
    AddedStandards(store, store', j);
    var added := store'.attempts[|store.attempts|..];
    if |store'.attempts| == |store.attempts| {
      assert added == [];
    } else {
      assert added == [store'.attempts[|store.attempts|]] && added[..0] == [];
    }
  }

  /** A handler's step that offers nothing to j and leaves its run alone, or takes it away. */
  lemma StepGains(s: Service, step: Step, s': Service, j: JobId)
    requires Possible(s.store, step) && s'.store == Next(s.store, step) && !Tries(s.store, step, j)
    requires j in s'.runs ==> j in s.runs && s'.runs[j].attempts == s.runs[j].attempts
    ensures Gains(s, s', j, 0) && Modest(s, s', j)
  {
    StepStandards(s.store, step, j);
  }

  lemma SameStore(s: Service, s': Service, j: JobId)
    requires s'.store == s.store && (j in s'.runs ==> j in s.runs && s'.runs[j].attempts == s.runs[j].attempts)
    ensures Gains(s, s', j, 0) && Modest(s, s', j)
  {
  }

  // ---------------------------------------------------------------- scheduling

  lemma OfferGains(s: Service, i: JobId, n: NodeId, w: World, j: JobId)
    requires i in s.runs && i < |s.store.jobs|
    ensures Gains(s, OfferTo(s, i, n, w).0, j, if i == j then 1 else 0) && i in OfferTo(s, i, n, w).0.runs
  {
    var offer := Offer(i, n, LeaseEnd(w), s.runs[i].deadline, w.storedAt);
    var run := s.runs[i].(attempts := s.runs[i].attempts + 1);
    var offered := s.(store := Next(s.store, offer), runs := s.runs[i := run]);
    var tried := OfferTo(s, i, n, w).0;
    StepStandards(s.store, offer, j);
    if w.delivered {
      assert tried.store == offered.store && tried.runs == offered.runs;
    } else {
      StepGains(offered, FailOne(i, |s.store.attempts|, w.now), tried, j);
      GainsTwice(s, offered, tried, j, if i == j then 1 else 0, 0);
    }
  }

  /** There is a run, and a node it can be offered to. */
  ghost predicate CanOffer(s: Service, j: JobId, w: World) {
    j in s.runs && Filter(s.store.attempts, s.sessions, s.active, s.runs[j].excluded, w.candidates) != []
  }

  lemma ScheduleGains(s: Service, i: JobId, w: World, j: JobId)
    requires Counted(s, i)
    ensures Gains(s, ScheduleInternal(s, i, w).0, j, if i == j && CanOffer(s, i, w) then 1 else 0)
    ensures ScheduleInternal(s, i, w).1 == Scheduled ==> CanOffer(s, i, w) && i in ScheduleInternal(s, i, w).0.runs
  {
    if i in s.runs {
      var choice := Choose(Filter(s.store.attempts, s.sessions, s.active, s.runs[i].excluded, w.candidates),
        w.preference);
      if choice.Some? {
        OfferGains(s, i, choice.value.node, w, j);
      } else {
        SameStore(s, s, j);
      }
    } else {
      SameStore(s, s, j);
    }
  }

  lemma GiveUpGains(s: Service, i: JobId, a: AttemptId, now: Time, j: JobId)
    ensures Gains(s, GiveUp(s, i, a, now), j, 0)
  {
    if a < |s.store.attempts| {
      StepGains(s, FailWhole(i, Some(a), now), RemoveRun(Do(s, FailWhole(i, Some(a), now)), i), j);
    } else {
      SameStore(s, s, j);
    }
  }

  // ---------------------------------------------------------------- expired leases

  /** One of job j's own leases: it is tried once more, which is counted, or its run is gone. */
  lemma OwnExpired(s: Service, a: AttemptId, w: World, now: Time, j: JobId, s': Service)
    requires a < |s.store.attempts| && s.store.attempts[a].job == j && Counted(s, j)
             && s' == HandleExpired(s, a, w, now)
    ensures Modest(s, s', j)
    ensures j in s'.runs ==> Gains(s, s', j, 1)
  {
    var n := s.store.attempts[a].node;
    var cleared := ClearActive(s, n);
    if MayRetry(cleared, j) {
      var prepared := PrepareRetry(cleared, j, n);
      var (tried, outcome) := ScheduleInternal(prepared, j, w);
      SameStore(s, prepared, j);
      ScheduleGains(prepared, j, w, j);
      var more: nat := if CanOffer(prepared, j, w) then 1 else 0;
      GainsTwice(s, prepared, tried, j, 0, more);
      GiveUpGains(tried, j, a, now, j);
      GainsTwice(s, tried, GiveUp(tried, j, a, now), j, more, 0);
    } else {
      SameStore(s, cleared, j);
      GiveUpGains(cleared, j, a, now, j);
      GainsTwice(s, cleared, s', j, 0, 0);
    }
  }

  lemma OtherExpired(s: Service, a: AttemptId, w: World, now: Time, j: JobId, s': Service)
    requires a < |s.store.attempts| && s.store.attempts[a].job != j && Counted(s, s.store.attempts[a].job)
    requires s' == HandleExpired(s, a, w, now)
    ensures Gains(s, s', j, 0) && (j in s'.runs <==> j in s.runs)
  {
    ExpiredSparesOthers(s, a, w, now, j);
    OwnExpired(s, a, w, now, s.store.attempts[a].job, s');
    UntouchedGains(s, s', j);
  }

  predicate Among(attempts: seq<Attempt>, ids: seq<AttemptId>, j: JobId)
    requires forall k | 0 <= k < |ids| :: ids[k] < |attempts|
  {
    exists k | 0 <= k < |ids| :: attempts[ids[k]].job == j
  }

  /**
   Every lease handled: job j ends up with at most two attempts, and still has its run only if each of its
   leases was retried.
   */
  lemma {:induction false} AllExpiredModest(s: Service, ids: seq<AttemptId>, worlds: seq<World>, now: Time, j: JobId,
                                            after: Service)
    requires (forall i: JobId :: Counted(s, i)) && after == HandleAllExpired(s, ids, worlds, now)
    requires forall k | 0 <= k < |ids| :: ids[k] < |s.store.attempts|
    ensures Modest(s, after, j)
    ensures j in after.runs && Among(s.store.attempts, ids, j) ==> Standards(after.store, j) > Standards(s.store, j)
  {
    if ids == [] {
      SameStore(s, s, j);
    } else {
      var k := |ids| - 1;
      var before := HandleAllExpired(s, ids[..k], worlds, now);
      forall i: JobId ensures Modest(s, before, i) && Counted(before, i) {
        AllExpiredModest(s, ids[..k], worlds, now, i, before);
        ModestCounted(s, before, i);
      }
      AllExpiredModest(s, ids[..k], worlds, now, j, before);
      LastExpired(s, before, ids, worlds, now, j, after);
    }
  }

  lemma LastExpired(s: Service, before: Service, ids: seq<AttemptId>, worlds: seq<World>, now: Time, j: JobId,
                    after: Service)
    requires ids != [] && (forall i: JobId :: Counted(before, i)) && Modest(s, before, j)
    requires forall k | 0 <= k < |ids| :: ids[k] < |s.store.attempts|
    requires after == HandleExpired(before, ids[|ids| - 1], WorldAt(worlds, |ids| - 1), now)
    requires j in before.runs && Among(s.store.attempts, ids[..|ids| - 1], j) ==>
               Standards(before.store, j) > Standards(s.store, j)
    ensures Modest(s, after, j)
    ensures j in after.runs && Among(s.store.attempts, ids, j) ==> Standards(after.store, j) > Standards(s.store, j)
  {
    var a, w := ids[|ids| - 1], WorldAt(worlds, |ids| - 1);
    assert SameAttempt(s.store.attempts[a], before.store.attempts[a]);
    if s.store.attempts[a].job == j {
      OwnExpired(before, a, w, now, j, after);
    } else {
      OtherExpired(before, a, w, now, j, after);
    }
    ModestTwice(s, before, after, j);
    if j in after.runs && Among(s.store.attempts, ids, j) {
      var k :| 0 <= k < |ids| && s.store.attempts[ids[k]].job == j;
      assert k < |ids| - 1 ==> ids[..|ids| - 1][k] == ids[k];
    }
  }

  /** An offer of job j is overdue. */
  ghost predicate Overdue(store: State, j: JobId, now: Time) {
    exists a | 0 <= a < |store.attempts| :: store.attempts[a].job == j && LeaseOver(store.attempts[a], now)
  }

  /** The overdue offers are the ones that are handled. */
  lemma AmongIff(store: State, j: JobId, now: Time)
    ensures Among(store.attempts, ExpiredIds(store.attempts, now), j) <==> Overdue(store, j, now)
  {
    var ids := ExpiredIds(store.attempts, now);
    if Overdue(store, j, now) {
      var a :| 0 <= a < |store.attempts| && store.attempts[a].job == j && LeaseOver(store.attempts[a], now);
      ExpiredIdsExact(store.attempts, now, a);
      var k :| 0 <= k < |ids| && ids[k] == a;
    }
  }

  lemma LeasesHandled(s: Service, now: Time, worlds: seq<World>, j: JobId, mid: Service)
    requires (forall i: JobId :: Counted(s, i)) && mid == ExpireAndRetry(s, now, worlds)
    ensures Modest(s, mid, j)
    ensures j in mid.runs && Overdue(s.store, j, now) ==> Standards(mid.store, j) > Standards(s.store, j)
    ensures !Overdue(s.store, j, now) ==> Gains(s, mid, j, 0) && (j in mid.runs <==> j in s.runs)
  {
    var expired, ids := Do(s, Expire(now)), ExpiredIds(s.store.attempts, now);
    AmongIff(s.store, j, now);
    forall i: JobId ensures Gains(s, expired, i, 0) && Counted(expired, i) {
      StepGains(s, Expire(now), expired, i);
      ModestCounted(s, expired, i);
    }
    StepGains(s, Expire(now), expired, j);
    forall k | 0 <= k < |ids| ensures expired.store.attempts[ids[k]].job == s.store.attempts[ids[k]].job {
      assert SameAttempt(s.store.attempts[ids[k]], expired.store.attempts[ids[k]]);
    }
    AllExpiredModest(expired, ids, worlds, now, j, mid);
    ModestTwice(s, expired, mid, j);
    if !Overdue(s.store, j, now) {
      AllExpiredSpareOthers(expired, ids, worlds, now, j, mid);
      UntouchedGains(expired, mid, j);
      GainsTwice(s, expired, mid, j, 0, 0);
    }
  }

  // ---------------------------------------------------------------- failures

  /** What a failure report, a refusal or a lost session asks the service to do. */
  datatype Failure = Failure(base: Service, node: NodeId, job: JobId, attempt: AttemptId, transient: bool, now: Time,
                             worlds: seq<World>, world: World)

  function FailureOf(s: Service, e: Event): Option<Failure> {
    match e
    case SaysRejected(n, j, a, retryable, now, worlds, w) =>
      if a in s.duplicates then None else Some(Failure(s, n, j, a, retryable, now, worlds, w))
    case SaysFailed(n, j, a, retryable, now, worlds, w) =>
      if a in s.duplicates then None else Some(Failure(s, n, j, a, retryable, now, worlds, w))
    case Detach(n, session, now, worlds, w) =>
      if n in s.sessions && s.sessions[n] == session && n in s.active
      then
        var gone := s.(sessions := s.sessions - {n}, active := s.active - {n});
        Some(Failure(gone, n, s.active[n].job, s.active[n].attempt, true, now, worlds, w))
      else None
    case _ => None
  }

  /** The attempt is failed and its node excluded; leases are expired next. */
  ghost function Failed(f: Failure): Service
    requires MayRetry(f.base, f.job)
  {
    Do(PrepareRetry(ClearActive(f.base, f.node), f.job, f.node), FailOne(f.job, f.attempt, f.now))
  }

  ghost function Handled(f: Failure): Service {
    HandleFailure(f.base, f.node, f.job, f.attempt, f.transient, f.now, f.worlds, f.world)
  }

  /** The failure may be retried and names an attempt there is. */
  predicate Retries(f: Failure) {
    f.transient && MayRetry(f.base, f.job) && f.attempt < |f.base.store.attempts|
  }

  /**
   The failure may be retried; an offer of its job, other than the attempt it names, is overdue; that
   offer's own retry goes through; and then there is a node for yet another one.
   */
  ghost predicate Overtakes(f: Failure) {
    && Retries(f)
    && Overdue(Failed(f).store, f.job, f.now)
    && CanOffer(ExpireAndRetry(Failed(f), f.now, f.worlds), f.job, f.world)
  }

  lemma FailedGains(f: Failure, j: JobId)
    requires Retries(f)
    ensures Gains(f.base, Failed(f), j, 0) && Modest(f.base, Failed(f), j)
  {
    StepGains(f.base, FailOne(f.job, f.attempt, f.now), Failed(f), j);
  }

  /** A retry, seen from job j, once the leases have been handled. */
  lemma RetryGains(f: Failure, failed: Service, mid: Service, j: JobId)
    requires Retries(f) && failed == Failed(f) && mid == ExpireAndRetry(failed, f.now, f.worlds) && Counted(mid, f.job)
    ensures Gains(mid, Handled(f), j, if f.job == j && CanOffer(mid, j, f.world) then 1 else 0)
  {
    var (tried, outcome) := ScheduleInternal(mid, f.job, f.world);
    ScheduleGains(mid, f.job, f.world, j);
    GiveUpGains(tried, f.job, f.attempt, f.now, j);
    var more: nat := if f.job == j && CanOffer(mid, j, f.world) then 1 else 0;
    GainsTwice(mid, tried, GiveUp(tried, f.job, f.attempt, f.now), j, more, 0);
  }

  lemma CountedAfter(f: Failure, failed: Service, mid: Service)
    requires (forall i: JobId :: Counted(f.base, i)) && Retries(f) && failed == Failed(f)
             && mid == ExpireAndRetry(failed, f.now, f.worlds)
    ensures forall i: JobId :: Counted(failed, i) && Counted(mid, i)
  {
    forall i: JobId ensures Counted(failed, i) {
      FailedGains(f, i);
      ModestCounted(f.base, failed, i);
    }
    forall i: JobId ensures Counted(mid, i) {
      LeasesHandled(failed, f.now, f.worlds, i, mid);
      ModestCounted(failed, mid, i);
    }
  }

  /** A run that is there has been tried. */
  predicate TriedOnce(s: Service, j: JobId) {
    j in s.runs ==> s.runs[j].attempts >= 1
  }

  /**
   A failure gives its job the third attempt exactly when it overtakes an overdue offer; otherwise nobody
   gets beyond two.
   */
  lemma FailureTries(f: Failure, j: JobId, after: Service)
    requires (forall i: JobId :: Counted(f.base, i)) && TriedOnce(f.base, j) && after == Handled(f)
    ensures if f.job == j && Overtakes(f)
            then Gains(f.base, after, j, 2) && Standards(after.store, j) == 3
            else Modest(f.base, after, j)
  {
    if Retries(f) {
      var failed := Failed(f);
      var mid := ExpireAndRetry(failed, f.now, f.worlds);
      CountedAfter(f, failed, mid);
      FailedGains(f, j);
      LeasesHandled(failed, f.now, f.worlds, j, mid);
      RetryGains(f, failed, mid, j);
      RetryCounts(f, failed, mid, j, after);
    } else {
      SameStore(f.base, ClearActive(f.base, f.node), j);
      GivenUp(f, j);
    }
  }

  lemma GivenUp(f: Failure, j: JobId)
    requires !Retries(f)
    ensures Modest(f.base, Handled(f), j)
  {
    var cleared := ClearActive(f.base, f.node);
    SameStore(f.base, cleared, j);
    if f.transient && MayRetry(cleared, f.job) {
      SameStore(f.base, PrepareRetry(cleared, f.job, f.node), j);
    } else {
      GiveUpGains(cleared, f.job, f.attempt, f.now, j);
      GainsTwice(f.base, cleared, Handled(f), j, 0, 0);
    }
  }

  lemma RetryCounts(f: Failure, failed: Service, mid: Service, j: JobId, after: Service)
    requires Retries(f) && failed == Failed(f) && mid == ExpireAndRetry(failed, f.now, f.worlds)
    requires Counted(f.base, j) && TriedOnce(f.base, j) && Gains(f.base, failed, j, 0) && Modest(failed, mid, j)
    requires j in mid.runs && Overdue(failed.store, j, f.now) ==> Standards(mid.store, j) > Standards(failed.store, j)
    requires !Overdue(failed.store, j, f.now) ==> Standards(mid.store, j) == Standards(failed.store, j)
    requires Gains(mid, after, j, if f.job == j && CanOffer(mid, j, f.world) then 1 else 0)
    ensures if f.job == j && Overtakes(f)
            then Gains(f.base, after, j, 2) && Standards(after.store, j) == 3
            else Modest(f.base, after, j)
  {
    GrowsTwice(f.base.store, failed.store, mid.store);
    GrowsTwice(f.base.store, mid.store, after.store);
  }

  // ---------------------------------------------------------------- the other handlers

  lemma DuplicateGains(s: Service, producer: NodeId, r: Report, request: Metering.Request, w: World, j: JobId)
    ensures Gains(s, StartDuplicate(s, producer, r, request, w), j, 0)
  {
    var choice := Choose(Filter(s.store.attempts, s.sessions, s.active, {producer}, w.candidates), w.preference);
    if choice.Some? && r.job < |s.store.jobs| {
      var n, a := choice.value.node, |s.store.attempts|;
      var offer := OfferVerification(r.job, n, LeaseEnd(w), VerificationDeadline(w), w.storedAt);
      var created := Do(s, offer);
      StepGains(s, offer, created, j);
      if w.delivered {
        SameStore(created, StartDuplicate(s, producer, r, request, w), j);
      } else {
        StepGains(created, VerifyFailed(r.job, a, w.now), StartDuplicate(s, producer, r, request, w), j);
      }
      GainsTwice(s, created, StartDuplicate(s, producer, r, request, w), j, 0, 0);
    } else {
      SameStore(s, s, j);
    }
  }

  lemma FinishedGains(s: Service, n: NodeId, r: Report, sampled: bool, now: Time, hold: int, prices: Option<Prices>,
                      w: World, j: JobId, after: Service)
    requires after == Finished(s, n, r, sampled, now, hold, prices, w)
    ensures Gains(s, after, j, 0)
  {
    var completed := ClearActive(Do(s, Complete(CompletionOf(r), now, hold, prices)), n);
    StepGains(s, Complete(CompletionOf(r), now, hold, prices), completed, j);
    if after != completed {
      if r.job in s.runs && sampled {
        var started := StartDuplicate(completed, n, r, s.runs[r.job].request, w);
        DuplicateGains(completed, n, r, s.runs[r.job].request, w, j);
        GainsTwice(s, completed, started, j, 0, 0);
        SameStore(started, RemoveRun(started, r.job), j);
        GainsTwice(s, started, after, j, 0, 0);
      } else {
        SameStore(completed, after, j);
        GainsTwice(s, completed, after, j, 0, 0);
      }
    }
  }

  lemma VerdictGains(s: Service, n: NodeId, r: Report, verified: bool, now: Time, hold: int, prices: Option<Prices>,
                     j: JobId, after: Service)
    requires r.attempt in s.duplicates && after == HandleDuplicateCompletion(s, n, r, verified, now, hold, prices)
    ensures Gains(s, after, j, 0)
  {
    var verdict := Verdict(s.duplicates[r.attempt], r, verified, now);
    var marked := Do(ClearActive(RemoveDuplicate(s, r.attempt), n), verdict);
    StepGains(s, verdict, marked, j);
    if verified && r.attempt < |s.store.attempts| && Dispatch.Plausible(s.duplicates[r.attempt], r) {
      StepGains(marked, PostOverhead(CompletionOf(r), now, hold, prices), after, j);
      GainsTwice(s, marked, after, j, 0, 0);
    }
  }

  lemma CompletionGains(s: Service, e: Event, j: JobId, after: Service)
    requires e.SaysCompleted?
             && after == HandleCompletion(s, e.node, e.report, e.findings, e.now, e.creditHold, e.prices, e.world)
    ensures Gains(s, after, j, 0)
  {
    var r := e.report;
    if r.attempt in s.duplicates {
      VerdictGains(s, e.node, r, e.findings.verified, e.now, e.creditHold, e.prices, j, after);
    } else if e.findings.verified && Metering.Plausible(UsedRequest(s, r.job), r.payload) {
      FinishedGains(s, e.node, r, e.findings.sampled, e.now, e.creditHold, e.prices, e.world, j, after);
    } else {
      StepGains(s, FailWhole(r.job, Some(r.attempt), e.now), after, j);
    }
  }

  /** A new job of another number: job j may be retried while leases are handled, no more. */
  lemma OtherChat(s: Service, e: Event, j: JobId, after: Service)
    requires e.Chat? && (forall i: JobId :: Counted(s, i)) && j != |s.store.jobs|
    requires Counted(Registered(s, e.org, e.request, e.deadline), |s.store.jobs|)
    requires after == HandleChat(s, e.org, e.request, e.deadline, e.now, e.worlds, e.world)
    ensures Modest(s, after, j)
  {
    var i := |s.store.jobs|;
    var registered := Registered(s, e.org, e.request, e.deadline);
    RegisteredCounted(s, e, registered);
    StepGains(s, NewJob(e.org, e.request), registered, j);
    var mid := ExpireAndRetry(registered, e.now, e.worlds);
    LeasesHandled(registered, e.now, e.worlds, j, mid);
    LeasesHandled(registered, e.now, e.worlds, i, mid);
    ModestCounted(registered, mid, i);
    ModestTwice(s, registered, mid, j);
    var tried := ScheduleInternal(mid, i, e.world).0;
    ScheduleGains(mid, i, e.world, j);
    ModestTwice(s, mid, tried, j);
    Dropped(tried, i, e.now, j);
    ModestTwice(s, tried, after, j);
  }

  lemma RegisteredCounted(s: Service, e: Event, registered: Service)
    requires e.Chat? && (forall i: JobId :: Counted(s, i)) && registered == Registered(s, e.org, e.request, e.deadline)
    requires Counted(registered, |s.store.jobs|)
    ensures forall i: JobId :: Counted(registered, i)
  {
    forall i: JobId ensures Counted(registered, i) {
      assert Counted(s, i);
      if i != |s.store.jobs| {
        StepGains(s, NewJob(e.org, e.request), registered, i);
      }
    }
  }

  lemma Dropped(s: Service, i: JobId, now: Time, j: JobId)
    ensures Modest(s, s, j) && Modest(s, RemoveRun(s, i), j)
            && Modest(s, Do(RemoveRun(s, i), FailWhole(i, None, now)), j)
  {
    SameStore(s, s, j);
    SameStore(s, RemoveRun(s, i), j);
    StepGains(s, FailWhole(i, None, now), Do(RemoveRun(s, i), FailWhole(i, None, now)), j);
  }

  /** No row belongs to job j yet. */
  ghost predicate Unused(s: Service, j: JobId) {
    j !in s.runs && forall a | 0 <= a < |s.store.attempts| :: s.store.attempts[a].job != j
  }

  lemma UnusedIsCounted(s: Service, org: OrgId, request: Metering.Request, deadline: Time)
    requires Unused(s, |s.store.jobs|)
    ensures Standards(s.store, |s.store.jobs|) == 0 && Counted(Registered(s, org, request, deadline), |s.store.jobs|)
  {
    SumZero(s.store.attempts, StandardFor(|s.store.jobs|));
  }

  /** The new job itself is tried at most once, and has been if its run remains. */
  lemma OwnChat(s: Service, e: Event, after: Service)
    requires e.Chat? && (forall i: JobId :: Counted(s, i)) && Unused(s, |s.store.jobs|)
    requires after == HandleChat(s, e.org, e.request, e.deadline, e.now, e.worlds, e.world)
    ensures var j := |s.store.jobs|;
            && |after.store.jobs| > j && Counted(after, j) && TriedOnce(after, j) && 0 <= Standards(after.store, j) <= 1
  {
    var j := |s.store.jobs|;
    var registered := Registered(s, e.org, e.request, e.deadline);
    UnusedIsCounted(s, e.org, e.request, e.deadline);
    RegisteredCounted(s, e, registered);
    StepGrows(s.store, NewJob(e.org, e.request));
    var (tried, outcome) := ScheduleAttempt(registered, j, e.now, e.worlds, e.world);
    FirstTry(registered, j, e.now, e.worlds, e.world, tried, outcome);
    ChatEnds(tried, outcome, j, e.now, after);
  }

  lemma ChatEnds(tried: Service, outcome: Outcome, j: JobId, now: Time, after: Service)
    requires |tried.store.jobs| > j && Counted(tried, j) && 0 <= Standards(tried.store, j) <= 1
    requires outcome == Scheduled ==> Standards(tried.store, j) == 1
    requires after == if outcome == Scheduled then tried
                      else if outcome == NoCapacity then Do(RemoveRun(tried, j), FailWhole(j, None, now))
                        else RemoveRun(tried, j)
    ensures |after.store.jobs| > j && Counted(after, j) && TriedOnce(after, j) && 0 <= Standards(after.store, j) <= 1
  {
    Dropped(tried, j, now, j);
  }

  /** A job with no attempts yet is scheduled: nothing of it is overdue, so it is tried at most once. */
  lemma FirstTry(s: Service, j: JobId, now: Time, worlds: seq<World>, w: World, tried: Service, outcome: Outcome)
    requires (forall i: JobId :: Counted(s, i)) && j < |s.store.jobs| && Standards(s.store, j) == 0
    requires forall a | 0 <= a < |s.store.attempts| :: s.store.attempts[a].job != j
    requires (tried, outcome) == ScheduleAttempt(s, j, now, worlds, w)
    ensures |tried.store.jobs| > j && Counted(tried, j) && 0 <= Standards(tried.store, j) <= 1
    ensures outcome == Scheduled ==> Standards(tried.store, j) == 1
  {
    var mid := ExpireAndRetry(s, now, worlds);
    LeasesHandled(s, now, worlds, j, mid);
    ModestCounted(s, mid, j);
    ScheduleGains(mid, j, w, j);
    ModestCounted(mid, tried, j);
  }

  // ---------------------------------------------------------------- every history

  /**
   What every state keeps of job j: counted, tried if it has a run, at most three times, and unused before
   there is one.
   */
  ghost predicate Kept(s: Service, j: JobId) {
    && Counted(s, j) && TriedOnce(s, j) && 0 <= Standards(s.store, j) <= 3
    && (j >= |s.store.jobs| ==> Unused(s, j))
  }

  /** The event is a failure of job j that overtakes its overdue offer. */
  ghost predicate Overtaking(s: Service, e: Event, j: JobId) {
    FailureOf(s, e).Some? && FailureOf(s, e).value.job == j && Overtakes(FailureOf(s, e).value)
  }

  lemma FailureEvent(s: Service, e: Event, j: JobId, after: Service)
    requires (forall i: JobId :: Kept(s, i)) && FailureOf(s, e).Some? && Moves(s, e, after)
    ensures if Overtaking(s, e, j) then Gains(s, after, j, 2) && Standards(after.store, j) == 3 else Modest(s, after, j)
  {
    var f := FailureOf(s, e).value;
    assert forall i: JobId :: Standards(f.base.store, i) == Standards(s.store, i);
    assert forall i: JobId :: Kept(s, i) ==> Counted(f.base, i) && TriedOnce(f.base, i);
    FailureTries(f, j, after);
  }

  lemma QuietEvent(s: Service, e: Event, j: JobId, after: Service)
    requires FailureOf(s, e).None? && !e.Chat? && Moves(s, e, after)
    ensures Modest(s, after, j)
  {
    if IsPlain(e) {
      StepGains(s, PlainStep(e), after, j);
    } else if e.SaysCompleted? {
      CompletionGains(s, e, j, after);
    } else if e.WaitTimeout? {
      StepGains(s, FailWhole(e.job, None, e.now), after, j);
    } else if e.SaysRejected? || e.SaysFailed? {
      StepGains(s, VerifyFailed(e.job, e.attempt, e.now), after, j);
    } else {
      SameStore(s, after, j);
    }
  }

  lemma GainsKeeps(s: Service, after: Service, j: JobId)
    requires Kept(s, j) && (Modest(s, after, j) || (Gains(s, after, j, 2) && Standards(after.store, j) == 3))
    ensures Kept(after, j)
  {
    ModestCounted(s, after, j);
    if j >= |after.store.jobs| {
      forall a | 0 <= a < |after.store.attempts| ensures after.store.attempts[a].job != j {
        assert a < |s.store.attempts| ==> SameAttempt(s.store.attempts[a], after.store.attempts[a]);
      }
    }
  }

  /**
   One event: job j has three standard attempts afterwards exactly when it had them or this event overtakes
   its offer.
   */
  lemma EventTries(s: Service, e: Event, j: JobId, after: Service)
    requires (forall i: JobId :: Kept(s, i)) && Moves(s, e, after)
    ensures Kept(after, j)
    ensures Standards(after.store, j) == 3 <==> Standards(s.store, j) == 3 || Overtaking(s, e, j)
  {
    assert Kept(s, j);
    if e.Chat? {
      ChatTries(s, e, j, after);
    } else {
      if FailureOf(s, e).Some? {
        FailureEvent(s, e, j, after);
      } else {
        QuietEvent(s, e, j, after);
      }
      GainsKeeps(s, after, j);
    }
  }

  lemma ChatTries(s: Service, e: Event, j: JobId, after: Service)
    requires (forall i: JobId :: Kept(s, i)) && e.Chat?
             && after == HandleChat(s, e.org, e.request, e.deadline, e.now, e.worlds, e.world)
    ensures Kept(after, j) && (Standards(after.store, j) == 3 <==> Standards(s.store, j) == 3)
  {
    assert Kept(s, j) && Kept(s, |s.store.jobs|);
    forall i: JobId ensures Counted(s, i) {
      assert Kept(s, i);
    }
    UnusedIsCounted(s, e.org, e.request, e.deadline);
    OwnChat(s, e, after);
    if j != |s.store.jobs| {
      OtherChat(s, e, j, after);
      GainsKeeps(s, after, j);
    }
  }

  lemma {:induction false} KeptInEveryHistory(states: seq<Service>, events: seq<Event>, k: nat, j: JobId)
    requires IsHistory(states, events) && k < |states|
    ensures Kept(states[k], j)
  {
    if k == 0 {
      NothingTried(states[0], j);
    } else {
      var before := states[k - 1];
      forall i: JobId ensures Kept(before, i) {
        KeptInEveryHistory(states, events, k - 1, i);
      }
      assert EventAt(states, events, k - 1);
      EventTries(before, events[k - 1], j, states[k]);
    }
  }

  lemma NothingTried(s: Service, j: JobId)
    requires |s.store.attempts| == 0 && s.runs == map[]
    ensures Kept(s, j) && Standards(s.store, j) == 0
  {
  }

  /** In every history, whatever the messages say, no job has a fourth standard attempt. */
  lemma NeverFourTimes(states: seq<Service>, events: seq<Event>, k: nat, j: JobId)
    requires IsHistory(states, events) && k < |states|
    ensures Standards(states[k].store, j) <= 3
  {
    KeptInEveryHistory(states, events, k, j);
  }

  /** Some event before the k-th state was such a failure. */
  ghost predicate OvertakenBefore(states: seq<Service>, events: seq<Event>, k: nat, j: JobId)
    requires k < |states| == |events| + 1
  {
    k > 0 && (OvertakenBefore(states, events, k - 1, j) || Overtaking(states[k - 1], events[k - 1], j))
  }

  /** And one has a third exactly when some failure of it overtook its overdue offer. */
  lemma {:induction false} ThirdAttemptIff(states: seq<Service>, events: seq<Event>, k: nat, j: JobId)
    requires IsHistory(states, events) && k < |states|
    ensures Standards(states[k].store, j) == 3 <==> OvertakenBefore(states, events, k, j)
  {
    if k == 0 {
      NothingTried(states[0], j);
    } else {
      ThirdAttemptIff(states, events, k - 1, j);
      NextTries(states, events, k - 1, j);
    }
  }

  lemma NextTries(states: seq<Service>, events: seq<Event>, k: nat, j: JobId)
    requires IsHistory(states, events) && k < |events|
    ensures Standards(states[k + 1].store, j) == 3
            <==> Standards(states[k].store, j) == 3 || Overtaking(states[k], events[k], j)
  {
    var before := states[k];
    forall i: JobId ensures Kept(before, i) {
      KeptInEveryHistory(states, events, k, i);
    }
    assert EventAt(states, events, k);
    EventTries(before, events[k], j, states[k + 1]);
  }
}
