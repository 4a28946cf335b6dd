/**
 Every history of the service is a run of the store: its handlers change rows through store steps
 only. So whatever holds in every run of the store holds in every history, whatever messages come in.
 */
module DispatchStore {
  import opened Options
  import opened Charges
  import opened Jobs
  import opened Dispatch
  import JobsBilling
  import Metering

  /** The steps that offer a verification attempt or post its cost. */
  predicate IsCheck(step: Step) {
    step.OfferVerification? || step.PostOverhead?
  }

  /** Some run of the store leads from one state to the other; with no checks, none of its steps is one of these. */
  ghost predicate Reaches(checks: bool, s: State, s': State) {
    exists states: seq<State>, steps: seq<Step> :: Leads(checks, states, steps, s, s')
  }

  ghost predicate Leads(checks: bool, states: seq<State>, steps: seq<Step>, s: State, s': State) {
    && IsRun(states, steps) && states[0] == s && states[|steps|] == s'
    && (checks || forall k | 0 <= k < |steps| :: !IsCheck(steps[k]))
  }

  lemma Stays(s: State)
    ensures Reaches(false, s, s)
  {
    assert Leads(false, [s], [], s, s);
  }

  lemma OneStep(s: State, step: Step)
    requires Possible(s, step)
    ensures Reaches(IsCheck(step), s, Next(s, step))
  {
    var states, steps := [s, Next(s, step)], [step];
    assert StepAt(states, steps, 0);
    assert Leads(IsCheck(step), states, steps, s, Next(s, step));
  }

  lemma AlsoWithChecks(s: State, s': State)
    requires Reaches(false, s, s')
    ensures Reaches(true, s, s')
  {
    var states: seq<State>, steps: seq<Step> :| Leads(false, states, steps, s, s');
    assert Leads(true, states, steps, s, s');
  }

  lemma JoinedRuns(states: seq<State>, steps: seq<Step>, states': seq<State>, steps': seq<Step>)
    requires IsRun(states, steps) && IsRun(states', steps') && states'[0] == states[|steps|]
    ensures Leads(true, states + states'[1..], steps + steps', states[0], states'[|steps'|])
  {
    var all, moves := states + states'[1..], steps + steps';
    forall k: nat | k < |moves| ensures StepAt(all, moves, k) {
      if k < |steps| {
        assert StepAt(states, steps, k);
      } else {
        assert StepAt(states', steps', k - |steps|);
      }
    }
  }

  lemma Onward(checks: bool, s: State, s': State, s'': State)
    requires Reaches(checks, s, s') && Reaches(checks, s', s'')
    ensures Reaches(checks, s, s'')
  {
    var states: seq<State>, steps: seq<Step> :| Leads(checks, states, steps, s, s');
    var states': seq<State>, steps': seq<Step> :| Leads(checks, states', steps', s', s'');
    JoinedRuns(states, steps, states', steps');
    assert Leads(checks, states + states'[1..], steps + steps', s, s'');
  }

  lemma TwoSteps(checks: bool, s: State, first: Step, second: Step)
    requires Possible(s, first) && Possible(Next(s, first), second) && (IsCheck(first) || IsCheck(second) ==> checks)
    ensures Reaches(checks, s, Next(s, first)) && Reaches(checks, s, Next(Next(s, first), second))
  {
    OneStep(s, first);
    OneStep(Next(s, first), second);
    if checks && !IsCheck(first) {
      AlsoWithChecks(s, Next(s, first));
    }
    if checks && !IsCheck(second) {
      AlsoWithChecks(Next(s, first), Next(Next(s, first), second));
    }
    Onward(checks, s, Next(s, first), Next(Next(s, first), second));
  }

  // ---------------------------------------------------------------- the handlers

  lemma OfferReaches(s: Service, j: JobId, n: NodeId, w: World)
    requires j in s.runs
    ensures Reaches(false, s.store, OfferTo(s, j, n, w).0.store)
    ensures OfferTo(s, j, n, w).0.duplicates == s.duplicates
  {
    if j < |s.store.jobs| {
      TwoSteps(false, s.store, Offer(j, n, LeaseEnd(w), s.runs[j].deadline, w.storedAt),
        FailOne(j, |s.store.attempts|, w.now));
    } else {
      Stays(s.store);
    }
  }

  lemma ScheduleReaches(s: Service, j: JobId, w: World)
    ensures Reaches(false, s.store, ScheduleInternal(s, j, w).0.store)
    ensures ScheduleInternal(s, j, w).0.duplicates == s.duplicates
  {
    Stays(s.store);
    if j in s.runs {
      var choice := Choose(Filter(s.store.attempts, s.sessions, s.active, s.runs[j].excluded, w.candidates),
        w.preference);
      if choice.Some? {
        OfferReaches(s, j, choice.value.node, w);
      }
    }
  }

  lemma GiveUpReaches(s: Service, j: JobId, a: AttemptId, now: Time)
    ensures Reaches(false, s.store, GiveUp(s, j, a, now).store)
    ensures GiveUp(s, j, a, now).duplicates == s.duplicates
  {
    Stays(s.store);
    OneStep(s.store, FailWhole(j, Some(a), now));
  }

  lemma TriedReaches(s: Service, j: JobId, w: World, a: AttemptId, now: Time)
    ensures Reaches(false, s.store, ScheduleInternal(s, j, w).0.store)
    ensures ScheduleInternal(s, j, w).0.duplicates == s.duplicates
    ensures Reaches(false, s.store, GiveUp(ScheduleInternal(s, j, w).0, j, a, now).store)
    ensures GiveUp(ScheduleInternal(s, j, w).0, j, a, now).duplicates == s.duplicates
  {
    var tried := ScheduleInternal(s, j, w).0;
    ScheduleReaches(s, j, w);
    GiveUpReaches(tried, j, a, now);
    Onward(false, s.store, tried.store, GiveUp(tried, j, a, now).store);
  }

  lemma ExpiredReaches(s: Service, a: AttemptId, w: World, now: Time)
    ensures Reaches(false, s.store, HandleExpired(s, a, w, now).store)
    ensures HandleExpired(s, a, w, now).duplicates == s.duplicates
  {
    Stays(s.store);
    if a < |s.store.attempts| {
      var j, n := s.store.attempts[a].job, s.store.attempts[a].node;
      var cleared := ClearActive(s, n);
      if MayRetry(cleared, j) {
        TriedReaches(PrepareRetry(cleared, j, n), j, w, a, now);
      } else {
        GiveUpReaches(cleared, j, a, now);
      }
    }
  }

  lemma {:induction false} AllExpiredReach(s: Service, ids: seq<AttemptId>, worlds: seq<World>, now: Time)
    ensures Reaches(false, s.store, HandleAllExpired(s, ids, worlds, now).store)
    ensures HandleAllExpired(s, ids, worlds, now).duplicates == s.duplicates
  {
    if ids == [] {
      Stays(s.store);
    } else {
      var k := |ids| - 1;
      var before := HandleAllExpired(s, ids[..k], worlds, now);
      AllExpiredReach(s, ids[..k], worlds, now);
      ExpiredReaches(before, ids[k], WorldAt(worlds, k), now);
      Onward(false, s.store, before.store, HandleAllExpired(s, ids, worlds, now).store);
    }
  }

  lemma AttemptReaches(s: Service, j: JobId, now: Time, worlds: seq<World>, w: World)
    ensures Reaches(false, s.store, ScheduleAttempt(s, j, now, worlds, w).0.store)
    ensures ScheduleAttempt(s, j, now, worlds, w).0.duplicates == s.duplicates
  {
    var expired, mid := Do(s, Expire(now)), ExpireAndRetry(s, now, worlds);
    OneStep(s.store, Expire(now));
    AllExpiredReach(expired, ExpiredIds(s.store.attempts, now), worlds, now);
    Onward(false, s.store, expired.store, mid.store);
    ScheduleReaches(mid, j, w);
    Onward(false, s.store, mid.store, ScheduleInternal(mid, j, w).0.store);
  }

  lemma RetriedReaches(s: Service, j: JobId, a: AttemptId, now: Time, worlds: seq<World>, w: World)
    ensures Reaches(false, s.store, Retried(s, j, a, now, worlds, w).store)
    ensures Retried(s, j, a, now, worlds, w).duplicates == s.duplicates
  {
    Stays(s.store);
    if a < |s.store.attempts| {
      var failed := Do(s, FailOne(j, a, now));
      var tried := ScheduleAttempt(failed, j, now, worlds, w).0;
      OneStep(s.store, FailOne(j, a, now));
      AttemptReaches(failed, j, now, worlds, w);
      Onward(false, s.store, failed.store, tried.store);
      GiveUpReaches(tried, j, a, now);
      Onward(false, s.store, tried.store, GiveUp(tried, j, a, now).store);
    }
  }

  lemma FailureReaches(s: Service, n: NodeId, j: JobId, a: AttemptId, transient: bool, now: Time, worlds: seq<World>,
                       w: World)
    ensures Reaches(false, s.store, HandleFailure(s, n, j, a, transient, now, worlds, w).store)
    ensures HandleFailure(s, n, j, a, transient, now, worlds, w).duplicates == s.duplicates
  {
    var cleared := ClearActive(s, n);
    if transient && MayRetry(cleared, j) {
      RetriedReaches(PrepareRetry(cleared, j, n), j, a, now, worlds, w);
    } else {
      GiveUpReaches(cleared, j, a, now);
    }
  }

  lemma DuplicateReaches(s: Service, producer: NodeId, r: Report, request: Metering.Request, w: World)
    ensures Reaches(true, s.store, StartDuplicate(s, producer, r, request, w).store)
  {
    var choice := Choose(Filter(s.store.attempts, s.sessions, s.active, {producer}, w.candidates), w.preference);
    if choice.Some? && r.job < |s.store.jobs| {
      var offer := OfferVerification(r.job, choice.value.node, LeaseEnd(w), VerificationDeadline(w), w.storedAt);
      TwoSteps(true, s.store, offer, VerifyFailed(r.job, |s.store.attempts|, w.now));
    } else {
      Stays(s.store);
      AlsoWithChecks(s.store, s.store);
    }
  }

  lemma FinishedReaches(s: Service, n: NodeId, r: Report, sampled: bool, now: Time, hold: int, prices: Option<Prices>,
                        w: World)
    ensures Reaches(true, s.store, Finished(s, n, r, sampled, now, hold, prices, w).store)
  {
    var completed := ClearActive(Do(s, Complete(CompletionOf(r), now, hold, prices)), n);
    OneStep(s.store, Complete(CompletionOf(r), now, hold, prices));
    AlsoWithChecks(s.store, completed.store);
    if r.job in s.runs {
      var request := s.runs[r.job].request;
      DuplicateReaches(completed, n, r, request, w);
      Onward(true, s.store, completed.store, StartDuplicate(completed, n, r, request, w).store);
    }
  }

  lemma CompletionReaches(s: Service, n: NodeId, r: Report, f: Findings, now: Time, hold: int, prices: Option<Prices>,
                          w: World)
    ensures Reaches(true, s.store, HandleCompletion(s, n, r, f, now, hold, prices, w).store)
  {
    if r.attempt in s.duplicates {
      TwoSteps(true, s.store, Verdict(s.duplicates[r.attempt], r, f.verified, now),
        PostOverhead(CompletionOf(r), now, hold, prices));
    } else if f.verified && Metering.Plausible(UsedRequest(s, r.job), r.payload) {
      FinishedReaches(s, n, r, f.sampled, now, hold, prices, w);
    } else {
      OneStep(s.store, FailWhole(r.job, Some(r.attempt), now));
      AlsoWithChecks(s.store, Next(s.store, FailWhole(r.job, Some(r.attempt), now)));
    }
  }

  lemma RefusalReaches(s: Service, n: NodeId, j: JobId, a: AttemptId, retryable: bool, now: Time, worlds: seq<World>,
                       w: World)
    ensures Reaches(false, s.store, HandleRefusal(s, n, j, a, retryable, now, worlds, w).store)
    ensures HandleRefusal(s, n, j, a, retryable, now, worlds, w).duplicates == s.duplicates - {a}
  {
    if a in s.duplicates {
      OneStep(s.store, VerifyFailed(j, a, now));
    } else {
      FailureReaches(s, n, j, a, retryable, now, worlds, w);
    }
  }

  lemma DetachReaches(s: Service, n: NodeId, session: SessionId, now: Time, worlds: seq<World>, w: World)
    ensures Reaches(false, s.store, HandleDetach(s, n, session, now, worlds, w).store)
    ensures HandleDetach(s, n, session, now, worlds, w).duplicates == s.duplicates
  {
    Stays(s.store);
    if n in s.sessions && s.sessions[n] == session && n in s.active {
      var gone := s.(sessions := s.sessions - {n}, active := s.active - {n});
      FailureReaches(gone, n, s.active[n].job, s.active[n].attempt, true, now, worlds, w);
    }
  }

  lemma ChatReaches(s: Service, org: OrgId, request: Metering.Request, deadline: Time, now: Time, worlds: seq<World>,
                    w: World)
    ensures Reaches(false, s.store, HandleChat(s, org, request, deadline, now, worlds, w).store)
    ensures HandleChat(s, org, request, deadline, now, worlds, w).duplicates == s.duplicates
  {
    var j, registered := |s.store.jobs|, Registered(s, org, request, deadline);
    var tried := ScheduleAttempt(registered, j, now, worlds, w).0;
    OneStep(s.store, NewJob(org, request));
    AttemptReaches(registered, j, now, worlds, w);
    Onward(false, s.store, registered.store, tried.store);
    OneStep(tried.store, FailWhole(j, None, now));
    Onward(false, s.store, tried.store, Next(tried.store, FailWhole(j, None, now)));
  }

  /** Everything but a completion does without checks, and pending checks can only go. */
  lemma QuietReaches(s: Service, e: Event, s': Service)
    requires Moves(s, e, s') && !e.SaysCompleted?
    ensures Reaches(false, s.store, s'.store)
    ensures forall a | a in s'.duplicates :: a in s.duplicates && s'.duplicates[a] == s.duplicates[a]
  {
    if IsPlain(e) {
      OneStep(s.store, PlainStep(e));
    } else if e.Attach? {
      Stays(s.store);
    } else if e.Detach? {
      DetachReaches(s, e.node, e.session, e.now, e.worlds, e.world);
    } else if e.Chat? {
      ChatReaches(s, e.org, e.request, e.deadline, e.now, e.worlds, e.world);
    } else if e.WaitTimeout? {
      OneStep(s.store, FailWhole(e.job, None, e.now));
    } else {
      RefusalReaches(s, e.node, e.job, e.attempt, e.retryable, e.now, e.worlds, e.world);
    }
  }

  lemma EventReaches(s: Service, e: Event, s': Service)
    requires Moves(s, e, s')
    ensures Reaches(true, s.store, s'.store)
  {
    if e.SaysCompleted? {
      CompletionReaches(s, e.node, e.report, e.findings, e.now, e.creditHold, e.prices, e.world);
    } else {
      QuietReaches(s, e, s');
      AlsoWithChecks(s.store, s'.store);
    }
  }

  // ---------------------------------------------------------------- every history

  /** The store of every state of every history is reached from the empty one by store steps. */
  lemma {:induction false} HistoryIsRun(states: seq<Service>, events: seq<Event>, k: nat)
    requires IsHistory(states, events) && k < |states|
    ensures Reaches(true, EMPTY, states[k].store)
  {
    if k == 0 {
      Stays(states[0].store);
      AlsoWithChecks(states[0].store, states[0].store);
    } else {
      HistoryIsRun(states, events, k - 1);
      assert EventAt(states, events, k - 1);
      EventReaches(states[k - 1], events[k - 1], states[k]);
      Onward(true, EMPTY, states[k - 1].store, states[k].store);
    }
  }

  /**
   So the service bills exactly once, whatever messages come in: at most one accepted result and one
   acceptance per job, one exactly when the other, and the ledger is reconciled.
   */
  lemma BillingInEveryHistory(states: seq<Service>, events: seq<Event>, k: nat)
    requires IsHistory(states, events) && k < |states|
    ensures JobsBilling.Inv(states[k].store)
  {
    HistoryIsRun(states, events, k);
    ReachedIsBilled(states[k].store);
  }

  lemma ReachedIsBilled(s: State)
    requires Reaches(true, EMPTY, s)
    ensures JobsBilling.Inv(s)
  {
    var states: seq<State>, steps: seq<Step> :| Leads(true, states, steps, EMPTY, s);
    JobsBilling.ExactlyOnceBilling(states, steps, |steps|);
  }
}
