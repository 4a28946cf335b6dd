/**
 Node exclusivity: whatever messages arrive, no node ever has two attempts offered, accepted or
 running at once, through retries nested in lease expiry and verification attempts.
 */
module DispatchExclusive {
  import opened Options
  import opened Charges
  import opened Jobs
  import opened JobsBilling
  import opened Dispatch
  import Metering

  ghost predicate Exclusive(store: State) {
    forall a, b | 0 <= a < b < |store.attempts| && store.attempts[a].node == store.attempts[b].node ::
      !(Active(store.attempts[a].status) && Active(store.attempts[b].status))
  }

  predicate Offers(step: Step) {
    step.Offer? || step.OfferVerification?
  }

  /** Only the two offering steps add an attempt: one row, for their own job and node. */
  lemma AttemptsGrow(store: State, step: Step)
    requires Possible(store, step)
    ensures var s' := Next(store, step);
            && |s'.jobs| >= |store.jobs|
            && (!(Offers(step) && step.job < |store.jobs|) ==> |s'.attempts| == |store.attempts|)
            && (Offers(step) && step.job < |store.jobs| ==>
                  var kind := if step.Offer? then Standard else Verification;
                  && |s'.attempts| == |store.attempts| + 1
                  && s'.attempts[|store.attempts|]
                     == NewAttempt(step.job, step.node, kind, step.lease, step.deadline, step.now))
  {
  }

  lemma StepKeepsExclusive(store: State, step: Step)
    requires Possible(store, step) && Exclusive(store)
    requires Offers(step) ==> !Occupied(store.attempts, step.node)
    ensures Exclusive(Next(store, step))
  {
    var s' := Next(store, step);
    AttemptsGrow(store, step);
    forall a | 0 <= a < |store.attempts| ensures Climbs(store.attempts[a], s'.attempts[a]) {
      StepRow(store, step, a);
    }
  }

  lemma DoKeepsExclusive(s: Service, step: Step)
    requires Possible(s.store, step) && Exclusive(s.store) && !Offers(step)
    ensures Exclusive(Do(s, step).store)
  {
    StepKeepsExclusive(s.store, step);
  }

  lemma OfferExclusive(s: Service, j: JobId, n: NodeId, w: World)
    requires Exclusive(s.store) && j in s.runs && !Occupied(s.store.attempts, n)
    ensures Exclusive(OfferTo(s, j, n, w).0.store)
  {
    var offer := Offer(j, n, LeaseEnd(w), s.runs[j].deadline, w.storedAt);
    StepKeepsExclusive(s.store, offer);
    StepKeepsExclusive(Next(s.store, offer), FailOne(j, |s.store.attempts|, w.now));
  }

  lemma ScheduleExclusive(s: Service, j: JobId, w: World)
    requires Exclusive(s.store)
    ensures Exclusive(ScheduleInternal(s, j, w).0.store)
  {
    if j in s.runs {
      var filtered := Filter(s.store.attempts, s.sessions, s.active, s.runs[j].excluded, w.candidates);
      var choice := Choose(filtered, w.preference);
      if choice.Some? {
        OfferExclusive(s, j, choice.value.node, w);
      }
    }
  }

  lemma GiveUpExclusive(s: Service, j: JobId, a: AttemptId, now: Time)
    requires Exclusive(s.store)
    ensures Exclusive(GiveUp(s, j, a, now).store)
  {
    DoKeepsExclusive(s, FailWhole(j, Some(a), now));
  }

  lemma ExpiredExclusive(s: Service, a: AttemptId, w: World, now: Time)
    requires Exclusive(s.store)
    ensures Exclusive(HandleExpired(s, a, w, now).store)
  {
    if a < |s.store.attempts| {
      var j, n := s.store.attempts[a].job, s.store.attempts[a].node;
      var cleared := ClearActive(s, n);
      if MayRetry(cleared, j) {
        var prepared := PrepareRetry(cleared, j, n);
        ScheduleExclusive(prepared, j, w);
        GiveUpExclusive(ScheduleInternal(prepared, j, w).0, j, a, now);
      } else {
        GiveUpExclusive(cleared, j, a, now);
      }
    }
  }

  lemma {:induction false} AllExpiredExclusive(s: Service, ids: seq<AttemptId>, worlds: seq<World>, now: Time)
    requires Exclusive(s.store)
    ensures Exclusive(HandleAllExpired(s, ids, worlds, now).store)
  {
    if ids != [] {
      var k := |ids| - 1;
      AllExpiredExclusive(s, ids[..k], worlds, now);
      var before := HandleAllExpired(s, ids[..k], worlds, now);
      ExpiredExclusive(before, ids[k], WorldAt(worlds, k), now);
    }
  }

  lemma AttemptExclusive(s: Service, j: JobId, now: Time, worlds: seq<World>, w: World)
    requires Exclusive(s.store)
    ensures Exclusive(ScheduleAttempt(s, j, now, worlds, w).0.store)
  {
    DoKeepsExclusive(s, Expire(now));
    AllExpiredExclusive(Do(s, Expire(now)), ExpiredIds(s.store.attempts, now), worlds, now);
    ScheduleExclusive(ExpireAndRetry(s, now, worlds), j, w);
  }

  lemma RetriedExclusive(s: Service, j: JobId, a: AttemptId, now: Time, worlds: seq<World>, w: World)
    requires Exclusive(s.store)
    ensures Exclusive(Retried(s, j, a, now, worlds, w).store)
  {
    var failed := Do(s, FailOne(j, a, now));
    DoKeepsExclusive(s, FailOne(j, a, now));
    AttemptExclusive(failed, j, now, worlds, w);
    GiveUpExclusive(ScheduleAttempt(failed, j, now, worlds, w).0, j, a, now);
  }

  lemma FailureExclusive(s: Service, n: NodeId, j: JobId, a: AttemptId, transient: bool, now: Time, worlds: seq<World>,
                         w: World)
    requires Exclusive(s.store)
    ensures Exclusive(HandleFailure(s, n, j, a, transient, now, worlds, w).store)
  {
    var cleared := ClearActive(s, n);
    if transient && MayRetry(cleared, j) {
      RetriedExclusive(PrepareRetry(cleared, j, n), j, a, now, worlds, w);
    } else {
      GiveUpExclusive(cleared, j, a, now);
    }
  }

  lemma DuplicateExclusive(s: Service, producer: NodeId, r: Report, request: Metering.Request, w: World)
    requires Exclusive(s.store)
    ensures Exclusive(StartDuplicate(s, producer, r, request, w).store)
  {
    var choice := Choose(Filter(s.store.attempts, s.sessions, s.active, {producer}, w.candidates), w.preference);
    if choice.Some? && r.job < |s.store.jobs| {
      var offer := OfferVerification(r.job, choice.value.node, LeaseEnd(w), VerificationDeadline(w), w.storedAt);
      StepKeepsExclusive(s.store, offer);
      StepKeepsExclusive(Next(s.store, offer), VerifyFailed(r.job, |s.store.attempts|, w.now));
    }
  }

  lemma VerdictExclusive(s: Service, n: NodeId, r: Report, verified: bool, now: Time, hold: int, prices: Option<Prices>)
    requires Exclusive(s.store) && r.attempt in s.duplicates
    ensures Exclusive(HandleDuplicateCompletion(s, n, r, verified, now, hold, prices).store)
  {
    var cleared := ClearActive(RemoveDuplicate(s, r.attempt), n);
    var verdict := Verdict(s.duplicates[r.attempt], r, verified, now);
    DoKeepsExclusive(cleared, verdict);
    DoKeepsExclusive(Do(cleared, verdict), PostOverhead(CompletionOf(r), now, hold, prices));
  }

  lemma FinishedExclusive(s: Service, n: NodeId, r: Report, sampled: bool, now: Time, hold: int, prices: Option<Prices>,
                          w: World)
    requires Exclusive(s.store)
    ensures Exclusive(Finished(s, n, r, sampled, now, hold, prices, w).store)
  {
    DoKeepsExclusive(s, Complete(CompletionOf(r), now, hold, prices));
    if r.job in s.runs {
      DuplicateExclusive(ClearActive(Do(s, Complete(CompletionOf(r), now, hold, prices)), n), n, r,
        s.runs[r.job].request, w);
    }
  }

  lemma CompletionExclusive(s: Service, n: NodeId, r: Report, f: Findings, now: Time, hold: int, prices: Option<Prices>,
                            w: World)
    requires Exclusive(s.store)
    ensures Exclusive(HandleCompletion(s, n, r, f, now, hold, prices, w).store)
  {
    if r.attempt in s.duplicates {
      VerdictExclusive(s, n, r, f.verified, now, hold, prices);
    } else {
      FinishedExclusive(s, n, r, f.sampled, now, hold, prices, w);
      DoKeepsExclusive(ClearActive(s, n), FailWhole(r.job, Some(r.attempt), now));
    }
  }

  lemma RefusalExclusive(s: Service, n: NodeId, j: JobId, a: AttemptId, retryable: bool, now: Time, worlds: seq<World>,
                         w: World)
    requires Exclusive(s.store)
    ensures Exclusive(HandleRefusal(s, n, j, a, retryable, now, worlds, w).store)
  {
    if a in s.duplicates {
      DoKeepsExclusive(ClearActive(RemoveDuplicate(s, a), n), VerifyFailed(j, a, now));
    } else {
      FailureExclusive(s, n, j, a, retryable, now, worlds, w);
    }
  }

  lemma ChatExclusive(s: Service, org: OrgId, request: Metering.Request, deadline: Time, now: Time, worlds: seq<World>,
                      w: World)
    requires Exclusive(s.store)
    ensures Exclusive(HandleChat(s, org, request, deadline, now, worlds, w).store)
  {
    var j := |s.store.jobs|;
    var registered := Registered(s, org, request, deadline);
    DoKeepsExclusive(s, NewJob(org, request));
    AttemptExclusive(registered, j, now, worlds, w);
    DoKeepsExclusive(RemoveRun(ScheduleAttempt(registered, j, now, worlds, w).0, j), FailWhole(j, None, now));
  }

  lemma DetachExclusive(s: Service, n: NodeId, session: SessionId, now: Time, worlds: seq<World>, w: World)
    requires Exclusive(s.store)
    ensures Exclusive(HandleDetach(s, n, session, now, worlds, w).store)
  {
    if n in s.sessions && s.sessions[n] == session && n in s.active {
      var gone := s.(sessions := s.sessions - {n}, active := s.active - {n});
      FailureExclusive(gone, n, s.active[n].job, s.active[n].attempt, true, now, worlds, w);
    }
  }

  lemma EventExclusive(s: Service, e: Event)
    requires CanHappen(s, e) && Exclusive(s.store)
    ensures Exclusive(Handle(s, e).store)
  {
    if e.Detach? {
      DetachExclusive(s, e.node, e.session, e.now, e.worlds, e.world);
    } else if e.Chat? {
      ChatExclusive(s, e.org, e.request, e.deadline, e.now, e.worlds, e.world);
    } else if e.SaysRejected? || e.SaysFailed? {
      RefusalExclusive(s, e.node, e.job, e.attempt, e.retryable, e.now, e.worlds, e.world);
    } else if e.SaysCompleted? {
      CompletionExclusive(s, e.node, e.report, e.findings, e.now, e.creditHold, e.prices, e.world);
    } else if e.WaitTimeout? {
      DoKeepsExclusive(RemoveRun(s, e.job), FailWhole(e.job, None, e.now));
    } else if IsPlain(e) {
      DoKeepsExclusive(s, PlainStep(e));
    }
  }

  lemma MoveExclusive(s: Service, e: Event, s': Service)
    requires Moves(s, e, s') && Exclusive(s.store)
    ensures Exclusive(s'.store)
  {
    EventExclusive(s, e);
  }

  /** In every state of every history each node has at most one attempt in progress. */
  lemma {:induction false} NodesAreExclusive(states: seq<Service>, events: seq<Event>, k: nat)
    requires IsHistory(states, events) && k < |states|
    ensures Exclusive(states[k].store)
  {
    if k == 0 {
      assert |states[0].store.attempts| == 0;
    } else {
      NodesAreExclusive(states, events, k - 1);
      assert EventAt(states, events, k - 1);
      MoveExclusive(states[k - 1], events[k - 1], states[k]);
    }
  }
}
