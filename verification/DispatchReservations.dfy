/**
 Reservations: whatever messages arrive, a node that is reserved for an attempt is connected, and the
 attempt it is reserved for is one of its own, through retries nested in lease expiry and checks.
 */
module DispatchReservations {
  import opened Options
  import opened Charges
  import opened Jobs
  import opened JobsBilling
  import opened Dispatch
  import DispatchExclusive
  import Metering

  /** The node has a session and is reserved for an attempt there is, of that job and on that node. */
  ghost predicate ReservedFor(s: Service, n: NodeId, work: ActiveJob) {
    n in s.sessions && Names(s.store, work.job, work.attempt) && s.store.attempts[work.attempt].node == n
  }

  ghost predicate Sound(s: Service) {
    forall n | n in s.active :: ReservedFor(s, n, s.active[n])
  }

  /** Giving up reservations is always sound. */
  lemma FewerIsSound(s: Service, s': Service)
    requires Sound(s) && s'.store == s.store && s'.sessions == s.sessions
    requires forall n | n in s'.active :: n in s.active && s'.active[n] == s.active[n]
    ensures Sound(s')
  {
    forall n | n in s'.active ensures ReservedFor(s', n, s'.active[n]) {
      assert ReservedFor(s, n, s.active[n]);
    }
  }

  lemma DoIsSound(s: Service, step: Step)
    requires Possible(s.store, step) && Sound(s)
    ensures Sound(Do(s, step))
  {
    var s' := Do(s, step);
    forall n | n in s'.active ensures ReservedFor(s', n, s'.active[n]) {
      assert ReservedFor(s, n, s.active[n]);
      StepRow(s.store, step, s.active[n].attempt);
    }
  }

  /** Reserving a connected node for an attempt of its own is sound. */
  lemma ReservingIsSound(s: Service, s': Service, n: NodeId, work: ActiveJob)
    requires Sound(s) && s' == s.(active := s.active[n := work], runs := s'.runs, duplicates := s'.duplicates)
    requires ReservedFor(s, n, work)
    ensures Sound(s')
  {
    forall m | m in s'.active ensures ReservedFor(s', m, s'.active[m]) {
      if m != n {
        assert ReservedFor(s, m, s.active[m]);
      }
    }
  }

  lemma OfferIsSound(s: Service, j: JobId, n: NodeId, w: World)
    requires Sound(s) && j in s.runs && n in s.sessions
    ensures Sound(OfferTo(s, j, n, w).0)
  {
    var offer, a := Offer(j, n, LeaseEnd(w), s.runs[j].deadline, w.storedAt), |s.store.attempts|;
    var created, s' := Do(s, offer), OfferTo(s, j, n, w).0;
    DoIsSound(s, offer);
    DispatchExclusive.AttemptsGrow(s.store, offer);
    if j >= |s.store.jobs| {
      FewerIsSound(s, s');
    } else if w.delivered {
      ReservingIsSound(created, s', n, ActiveJob(j, a));
    } else {
      var cleared := s'.(store := created.store);
      FewerIsSound(created, cleared);
      DoIsSound(cleared, FailOne(j, a, w.now));
    }
  }

  lemma ScheduleIsSound(s: Service, j: JobId, w: World)
    requires Sound(s)
    ensures Sound(ScheduleInternal(s, j, w).0)
  {
    if j in s.runs {
      var filtered := Filter(s.store.attempts, s.sessions, s.active, s.runs[j].excluded, w.candidates);
      var choice := Choose(filtered, w.preference);
      if choice.Some? {
        OfferIsSound(s, j, choice.value.node, w);
      }
    }
  }

  lemma GiveUpIsSound(s: Service, j: JobId, a: AttemptId, now: Time)
    requires Sound(s)
    ensures Sound(GiveUp(s, j, a, now))
  {
    var failed := Do(s, FailWhole(j, Some(a), now));
    DoIsSound(s, FailWhole(j, Some(a), now));
    FewerIsSound(failed, RemoveRun(failed, j));
  }

  lemma ExpiredIsSound(s: Service, a: AttemptId, w: World, now: Time)
    requires Sound(s)
    ensures Sound(HandleExpired(s, a, w, now))
  {
    if a < |s.store.attempts| {
      var j, n := s.store.attempts[a].job, s.store.attempts[a].node;
      var cleared := ClearActive(s, n);
      FewerIsSound(s, cleared);
      if MayRetry(cleared, j) {
        var prepared := PrepareRetry(cleared, j, n);
        FewerIsSound(cleared, prepared);
        ScheduleIsSound(prepared, j, w);
        GiveUpIsSound(ScheduleInternal(prepared, j, w).0, j, a, now);
      } else {
        GiveUpIsSound(cleared, j, a, now);
      }
    }
  }

  lemma {:induction false} AllExpiredAreSound(s: Service, ids: seq<AttemptId>, worlds: seq<World>, now: Time)
    requires Sound(s)
    ensures Sound(HandleAllExpired(s, ids, worlds, now))
  {
    if ids != [] {
      var k := |ids| - 1;
      AllExpiredAreSound(s, ids[..k], worlds, now);
      var before := HandleAllExpired(s, ids[..k], worlds, now);
      ExpiredIsSound(before, ids[k], WorldAt(worlds, k), now);
    }
  }

  lemma AttemptIsSound(s: Service, j: JobId, now: Time, worlds: seq<World>, w: World)
    requires Sound(s)
    ensures Sound(ScheduleAttempt(s, j, now, worlds, w).0)
  {
    DoIsSound(s, Expire(now));
    AllExpiredAreSound(Do(s, Expire(now)), ExpiredIds(s.store.attempts, now), worlds, now);
    ScheduleIsSound(ExpireAndRetry(s, now, worlds), j, w);
  }

  lemma RetriedIsSound(s: Service, j: JobId, a: AttemptId, now: Time, worlds: seq<World>, w: World)
    requires Sound(s)
    ensures Sound(Retried(s, j, a, now, worlds, w))
  {
    var failed := Do(s, FailOne(j, a, now));
    DoIsSound(s, FailOne(j, a, now));
    AttemptIsSound(failed, j, now, worlds, w);
    GiveUpIsSound(ScheduleAttempt(failed, j, now, worlds, w).0, j, a, now);
  }

  lemma FailureIsSound(s: Service, n: NodeId, j: JobId, a: AttemptId, transient: bool, now: Time, worlds: seq<World>,
                       w: World)
    requires Sound(ClearActive(s, n))
    ensures Sound(HandleFailure(s, n, j, a, transient, now, worlds, w))
  {
    var cleared := ClearActive(s, n);
    if transient && MayRetry(cleared, j) {
      FewerIsSound(cleared, PrepareRetry(cleared, j, n));
      RetriedIsSound(PrepareRetry(cleared, j, n), j, a, now, worlds, w);
    } else {
      GiveUpIsSound(cleared, j, a, now);
    }
  }

  lemma CheckIsSound(s: Service, n: NodeId, producer: NodeId, r: Report, request: Metering.Request, w: World)
    requires Sound(s) && n in s.sessions
    ensures Sound(OfferCheck(s, n, producer, r, request, w))
  {
    if r.job < |s.store.jobs| {
      var a, s' := |s.store.attempts|, OfferCheck(s, n, producer, r, request, w);
      var offer := OfferVerification(r.job, n, LeaseEnd(w), VerificationDeadline(w), w.storedAt);
      var created := Do(s, offer);
      DoIsSound(s, offer);
      DispatchExclusive.AttemptsGrow(s.store, offer);
      if w.delivered {
        ReservingIsSound(created, s', n, ActiveJob(r.job, a));
      } else {
        DoIsSound(created, VerifyFailed(r.job, a, w.now));
        FewerIsSound(Do(created, VerifyFailed(r.job, a, w.now)), s');
      }
    }
  }

  lemma DuplicateIsSound(s: Service, producer: NodeId, r: Report, request: Metering.Request, w: World)
    requires Sound(s)
    ensures Sound(StartDuplicate(s, producer, r, request, w))
  {
    var choice := Choose(Filter(s.store.attempts, s.sessions, s.active, {producer}, w.candidates), w.preference);
    if choice.Some? {
      CheckIsSound(s, choice.value.node, producer, r, request, w);
    }
  }

  lemma VerdictIsSound(s: Service, n: NodeId, r: Report, verified: bool, now: Time, hold: int, prices: Option<Prices>)
    requires Sound(s) && r.attempt in s.duplicates
    ensures Sound(HandleDuplicateCompletion(s, n, r, verified, now, hold, prices))
  {
    var cleared := ClearActive(RemoveDuplicate(s, r.attempt), n);
    var verdict := Verdict(s.duplicates[r.attempt], r, verified, now);
    FewerIsSound(s, cleared);
    DoIsSound(cleared, verdict);
    DoIsSound(Do(cleared, verdict), PostOverhead(CompletionOf(r), now, hold, prices));
  }

  lemma FinishedIsSound(s: Service, n: NodeId, r: Report, sampled: bool, now: Time, hold: int, prices: Option<Prices>,
                        w: World)
    requires Sound(s)
    ensures Sound(Finished(s, n, r, sampled, now, hold, prices, w))
  {
    var done := Do(s, Complete(CompletionOf(r), now, hold, prices));
    var completed := ClearActive(done, n);
    DoIsSound(s, Complete(CompletionOf(r), now, hold, prices));
    FewerIsSound(done, completed);
    FewerIsSound(completed, RemoveRun(completed, r.job));
    if r.job in s.runs {
      var checked := StartDuplicate(completed, n, r, s.runs[r.job].request, w);
      DuplicateIsSound(completed, n, r, s.runs[r.job].request, w);
      FewerIsSound(checked, RemoveRun(checked, r.job));
    }
  }

  lemma CompletionIsSound(s: Service, n: NodeId, r: Report, f: Findings, now: Time, hold: int, prices: Option<Prices>,
                          w: World)
    requires Sound(s)
    ensures Sound(HandleCompletion(s, n, r, f, now, hold, prices, w))
  {
    if r.attempt in s.duplicates {
      VerdictIsSound(s, n, r, f.verified, now, hold, prices);
    } else if f.verified && Metering.Plausible(UsedRequest(s, r.job), r.payload) {
      FinishedIsSound(s, n, r, f.sampled, now, hold, prices, w);
    } else {
      var cleared, failure := ClearActive(s, n), FailWhole(r.job, Some(r.attempt), now);
      FewerIsSound(s, cleared);
      DoIsSound(cleared, failure);
      FewerIsSound(Do(cleared, failure), RemoveRun(Do(cleared, failure), r.job));
    }
  }

  lemma RefusalIsSound(s: Service, n: NodeId, j: JobId, a: AttemptId, retryable: bool, now: Time, worlds: seq<World>,
                       w: World)
    requires Sound(s)
    ensures Sound(HandleRefusal(s, n, j, a, retryable, now, worlds, w))
  {
    if a in s.duplicates {
      var cleared := ClearActive(RemoveDuplicate(s, a), n);
      FewerIsSound(s, cleared);
      DoIsSound(cleared, VerifyFailed(j, a, now));
    } else {
      FewerIsSound(s, ClearActive(s, n));
      FailureIsSound(s, n, j, a, retryable, now, worlds, w);
    }
  }

  lemma ChatIsSound(s: Service, org: OrgId, request: Metering.Request, deadline: Time, now: Time, worlds: seq<World>,
                    w: World)
    requires Sound(s)
    ensures Sound(HandleChat(s, org, request, deadline, now, worlds, w))
  {
    var j, created, registered := |s.store.jobs|, Do(s, NewJob(org, request)), Registered(s, org, request, deadline);
    DoIsSound(s, NewJob(org, request));
    FewerIsSound(created, registered);
    AttemptIsSound(registered, j, now, worlds, w);
    var tried := ScheduleAttempt(registered, j, now, worlds, w).0;
    FewerIsSound(tried, RemoveRun(tried, j));
    DoIsSound(RemoveRun(tried, j), FailWhole(j, None, now));
  }

  /** A node that disconnects loses its reservation with its session. */
  lemma DetachIsSound(s: Service, n: NodeId, session: SessionId, now: Time, worlds: seq<World>, w: World)
    requires Sound(s)
    ensures Sound(HandleDetach(s, n, session, now, worlds, w))
  {
    if n in s.sessions && s.sessions[n] == session {
      var gone := s.(sessions := s.sessions - {n}, active := s.active - {n});
      forall m | m in gone.active ensures ReservedFor(gone, m, gone.active[m]) {
        assert ReservedFor(s, m, s.active[m]);
      }
      if n in s.active {
        FewerIsSound(gone, ClearActive(gone, n));
        FailureIsSound(gone, n, s.active[n].job, s.active[n].attempt, true, now, worlds, w);
      }
    }
  }

  lemma AttachIsSound(s: Service, n: NodeId, session: SessionId)
    requires Sound(s)
    ensures Sound(s.(sessions := s.sessions[n := session]))
  {
    forall m | m in s.active ensures ReservedFor(s.(sessions := s.sessions[n := session]), m, s.active[m]) {
      assert ReservedFor(s, m, s.active[m]);
    }
  }

  lemma EventIsSound(s: Service, e: Event)
    requires CanHappen(s, e) && Sound(s)
    ensures Sound(Handle(s, e))
  {
    if e.Attach? {
      AttachIsSound(s, e.node, e.session);
    } else if e.Detach? {
      DetachIsSound(s, e.node, e.session, e.now, e.worlds, e.world);
    } else if e.Chat? {
      ChatIsSound(s, e.org, e.request, e.deadline, e.now, e.worlds, e.world);
    } else if e.SaysRejected? || e.SaysFailed? {
      RefusalIsSound(s, e.node, e.job, e.attempt, e.retryable, e.now, e.worlds, e.world);
    } else if e.SaysCompleted? {
      CompletionIsSound(s, e.node, e.report, e.findings, e.now, e.creditHold, e.prices, e.world);
    } else if e.WaitTimeout? {
      FewerIsSound(s, RemoveRun(s, e.job));
      DoIsSound(RemoveRun(s, e.job), FailWhole(e.job, None, e.now));
    } else {
      DoIsSound(s, PlainStep(e));
    }
  }

  lemma MoveIsSound(s: Service, e: Event, s': Service)
    requires Moves(s, e, s') && Sound(s)
    ensures Sound(s')
  {
    EventIsSound(s, e);
  }

  /** In every state of every history each reserved node is connected and reserved for an attempt of its own. */
  lemma {:induction false} ReservationsAreSound(states: seq<Service>, events: seq<Event>, k: nat)
    requires IsHistory(states, events) && k < |states|
    ensures Sound(states[k])
  {
    if k == 0 {
      assert |states[0].active| == 0;
    } else {
      ReservationsAreSound(states, events, k - 1);
      assert EventAt(states, events, k - 1);
      MoveIsSound(states[k - 1], events[k - 1], states[k]);
    }
  }
}
