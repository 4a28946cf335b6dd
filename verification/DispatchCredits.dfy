/**
 What a completion is checked against, and what that means for the credit it earns: the request of
 the job's run while there is one, and an empty request once the run is gone.
 */
module DispatchCredits {
  import opened Options
  import opened Charges
  import opened Jobs
  import opened Dispatch
  import DispatchStore
  import Ledger
  import LedgerInvariant
  import LedgerRuns
  import JobsBilling
  import Metering

  // ---------------------------------------------------------------- handlers that move no money

  /** The ledger stands still, jobs keep their requests, runs may only go, and a new check has its run's request. */
  ghost predicate Mild(s: Service, s': Service) {
    && s'.store.ledger == s.store.ledger
    && |s'.store.jobs| >= |s.store.jobs|
    && (forall j | 0 <= j < |s.store.jobs| :: s'.store.jobs[j].request == s.store.jobs[j].request)
    && (forall j | j in s'.runs :: j in s.runs && s'.runs[j].request == s.runs[j].request)
    && (forall a | a in s'.duplicates :: OldOrOwn(s, s'.duplicates[a], a))
  }

  predicate OldOrOwn(s: Service, dup: Duplicate, a: AttemptId) {
    (a in s.duplicates && dup == s.duplicates[a]) || (dup.job in s.runs && dup.request == s.runs[dup.job].request)
  }

  lemma MildTwice(s: Service, s': Service, s'': Service)
    requires Mild(s, s') && Mild(s', s'')
    ensures Mild(s, s'')
  {
  }

  predicate MovesMoney(step: Step) {
    step.Complete? || step.PostOverhead? || step.Payouts?
  }

  /** A handler that makes one store step that moves no money. */
  lemma MildStep(s: Service, step: Step, s': Service)
    requires Possible(s.store, step) && !MovesMoney(step) && s'.store == Next(s.store, step)
    requires forall j | j in s'.runs :: j in s.runs && s'.runs[j].request == s.runs[j].request
    requires forall a | a in s'.duplicates :: OldOrOwn(s, s'.duplicates[a], a)
    ensures Mild(s, s')
  {
    JobsBilling.StepKeepsRequests(s.store, step);
    var moved := JobsBilling.LedgerMoves(s.store, step);
  }

  lemma OfferMild(s: Service, j: JobId, n: NodeId, w: World)
    requires j in s.runs
    ensures Mild(s, OfferTo(s, j, n, w).0)
  {
    if j < |s.store.jobs| {
      var offer := Offer(j, n, LeaseEnd(w), s.runs[j].deadline, w.storedAt);
      var run := s.runs[j].(attempts := s.runs[j].attempts + 1);
      var offered := s.(store := Next(s.store, offer), runs := s.runs[j := run]);
      MildStep(s, offer, offered);
      if !w.delivered {
        var failed := OfferTo(s, j, n, w).0;
        MildStep(offered, FailOne(j, |s.store.attempts|, w.now), failed);
        MildTwice(s, offered, failed);
      }
    }
  }

  lemma ScheduleMild(s: Service, j: JobId, w: World)
    ensures Mild(s, ScheduleInternal(s, j, w).0)
  {
    if j in s.runs {
      var choice := Choose(Filter(s.store.attempts, s.sessions, s.active, s.runs[j].excluded, w.candidates),
        w.preference);
      if choice.Some? {
        OfferMild(s, j, choice.value.node, w);
      }
    }
  }

  lemma GiveUpMild(s: Service, j: JobId, a: AttemptId, now: Time)
    ensures Mild(s, GiveUp(s, j, a, now))
  {
    MildStep(s, FailWhole(j, Some(a), now), RemoveRun(Do(s, FailWhole(j, Some(a), now)), j));
  }

  lemma TriedMild(s: Service, j: JobId, w: World, a: AttemptId, now: Time)
    ensures Mild(s, ScheduleInternal(s, j, w).0) && Mild(s, GiveUp(ScheduleInternal(s, j, w).0, j, a, now))
  {
    var tried := ScheduleInternal(s, j, w).0;
    ScheduleMild(s, j, w);
    GiveUpMild(tried, j, a, now);
    MildTwice(s, tried, GiveUp(tried, j, a, now));
  }

  lemma ExpiredMild(s: Service, a: AttemptId, w: World, now: Time)
    ensures Mild(s, HandleExpired(s, a, w, now))
  {
    if a < |s.store.attempts| {
      var j, n := s.store.attempts[a].job, s.store.attempts[a].node;
      var cleared := ClearActive(s, n);
      if MayRetry(cleared, j) {
        var prepared := PrepareRetry(cleared, j, n);
        TriedMild(prepared, j, w, a, now);
        MildTwice(s, prepared, HandleExpired(s, a, w, now));
      } else {
        GiveUpMild(cleared, j, a, now);
      }
    }
  }

  lemma {:induction false} AllExpiredMild(s: Service, ids: seq<AttemptId>, worlds: seq<World>, now: Time)
    ensures Mild(s, HandleAllExpired(s, ids, worlds, now))
  {
    if ids != [] {
      var k := |ids| - 1;
      AllExpiredMild(s, ids[..k], worlds, now);
      var before := HandleAllExpired(s, ids[..k], worlds, now);
      ExpiredMild(before, ids[k], WorldAt(worlds, k), now);
      MildTwice(s, before, HandleExpired(before, ids[k], WorldAt(worlds, k), now));
    }
  }

  lemma AttemptMild(s: Service, j: JobId, now: Time, worlds: seq<World>, w: World)
    ensures Mild(s, ScheduleAttempt(s, j, now, worlds, w).0)
  {
    var expired := Do(s, Expire(now));
    var handled := ExpireAndRetry(s, now, worlds);
    MildStep(s, Expire(now), expired);
    AllExpiredMild(expired, ExpiredIds(s.store.attempts, now), worlds, now);
    MildTwice(s, expired, handled);
    ScheduleMild(handled, j, w);
    MildTwice(s, handled, ScheduleInternal(handled, j, w).0);
  }

  lemma RetriedMild(s: Service, j: JobId, a: AttemptId, now: Time, worlds: seq<World>, w: World)
    ensures Mild(s, Retried(s, j, a, now, worlds, w))
  {
    if a < |s.store.attempts| {
      var failed := Do(s, FailOne(j, a, now));
      var tried := ScheduleAttempt(failed, j, now, worlds, w).0;
      MildStep(s, FailOne(j, a, now), failed);
      AttemptMild(failed, j, now, worlds, w);
      MildTwice(s, failed, tried);
      GiveUpMild(tried, j, a, now);
      MildTwice(s, tried, GiveUp(tried, j, a, now));
    }
  }

  lemma FailureMild(s: Service, n: NodeId, j: JobId, a: AttemptId, transient: bool, now: Time, worlds: seq<World>,
                    w: World)
    ensures Mild(s, HandleFailure(s, n, j, a, transient, now, worlds, w))
  {
    var cleared := ClearActive(s, n);
    if transient && MayRetry(cleared, j) {
      var prepared := PrepareRetry(cleared, j, n);
      RetriedMild(prepared, j, a, now, worlds, w);
      MildTwice(s, prepared, Retried(prepared, j, a, now, worlds, w));
    } else {
      GiveUpMild(cleared, j, a, now);
      MildTwice(s, cleared, GiveUp(cleared, j, a, now));
    }
  }

  lemma DuplicateMild(s: Service, producer: NodeId, r: Report, request: Metering.Request, w: World)
    requires r.job in s.runs && request == s.runs[r.job].request
    ensures Mild(s, StartDuplicate(s, producer, r, request, w))
  {
    var choice := Choose(Filter(s.store.attempts, s.sessions, s.active, {producer}, w.candidates), w.preference);
    if choice.Some? && r.job < |s.store.jobs| {
      var offer := OfferVerification(r.job, choice.value.node, LeaseEnd(w), VerificationDeadline(w), w.storedAt);
      var offered := s.(store := Next(s.store, offer));
      MildStep(s, offer, offered);
      if w.delivered {
        MildStep(s, offer, StartDuplicate(s, producer, r, request, w));
      } else {
        var failed := StartDuplicate(s, producer, r, request, w);
        MildStep(offered, VerifyFailed(r.job, |s.store.attempts|, w.now), failed);
        MildTwice(s, offered, failed);
      }
    }
  }

  // ---------------------------------------------------------------- what moves money

  /** The request a reported completion is held against. */
  function CheckedAgainst(s: Service, r: Report): Metering.Request {
    if r.attempt in s.duplicates then s.duplicates[r.attempt].request else UsedRequest(s, r.job)
  }

  /** The store step through which a service event moves money, if it does. */
  ghost predicate MoneyStep(s: Service, e: Event, step: Step) {
    || (step.Payouts? && e.PayoutStep?)
    || (&& e.SaysCompleted? && (step.Complete? || step.PostOverhead?)
        && step.completion == CompletionOf(e.report) && step.prices == e.prices
        && Metering.Plausible(CheckedAgainst(s, e.report), e.report.payload))
  }

  lemma MarkedMild(s: Service, n: NodeId, r: Report, verified: bool, now: Time, marked: Service)
    requires r.attempt in s.duplicates
    requires marked == Do(ClearActive(RemoveDuplicate(s, r.attempt), n),
             Verdict(s.duplicates[r.attempt], r, verified, now))
    ensures Mild(s, marked)
  {
    MildStep(s, Verdict(s.duplicates[r.attempt], r, verified, now), marked);
  }

  lemma ForgetMild(s: Service, j: JobId)
    ensures Mild(s, RemoveRun(s, j))
  {
  }

  lemma CheckedMild(s: Service, producer: NodeId, r: Report, w: World)
    requires r.job in s.runs
    ensures Mild(s, RemoveRun(StartDuplicate(s, producer, r, s.runs[r.job].request, w), r.job))
  {
    var checked := StartDuplicate(s, producer, r, s.runs[r.job].request, w);
    DuplicateMild(s, producer, r, s.runs[r.job].request, w);
    ForgetMild(checked, r.job);
    MildTwice(s, checked, RemoveRun(checked, r.job));
  }

  lemma FinishedMild(s: Service, n: NodeId, r: Report, sampled: bool, now: Time, hold: int, prices: Option<Prices>,
                     w: World)
    ensures Mild(Do(s, Complete(CompletionOf(r), now, hold, prices)), Finished(s, n, r, sampled, now, hold, prices, w))
  {
    var billed := Do(s, Complete(CompletionOf(r), now, hold, prices));
    var completed := ClearActive(billed, n);
    assert Mild(billed, completed);
    if CompleteJob(s.store, CompletionOf(r), now, hold, prices).Ok? {
      if r.job in s.runs && sampled {
        CheckedMild(completed, n, r, w);
      } else {
        ForgetMild(completed, r.job);
      }
      MildTwice(billed, completed, Finished(s, n, r, sampled, now, hold, prices, w));
    }
  }

  /** A check's verdict moves money, if at all, through one posting of verification cost. */
  lemma VerdictMoney(s: Service, e: Event, s': Service) returns (mid: Service, step: Option<Step>)
    requires e.SaysCompleted? && Moves(s, e, s') && e.report.attempt in s.duplicates
    ensures step.None? ==> Mild(s, s')
    ensures step.Some? ==>
              && MoneyStep(s, e, step.value) && Possible(mid.store, step.value)
              && Mild(s, mid) && Do(mid, step.value) == s'
  {
    var r := e.report;
    var dup := s.duplicates[r.attempt];
    mid, step := Do(ClearActive(RemoveDuplicate(s, r.attempt), e.node), Verdict(dup, r, e.findings.verified, e.now)),
      None;
    MarkedMild(s, e.node, r, e.findings.verified, e.now, mid);
    if e.findings.verified && r.attempt < |s.store.attempts| && Plausible(dup, r) {
      step := Some(PostOverhead(CompletionOf(r), e.now, e.creditHold, e.prices));
    }
  }

  /** A completion message moves money through at most one store step, and only after its check. */
  lemma CompletionMoney(s: Service, e: Event, s': Service) returns (mid: Service, step: Option<Step>)
    requires e.SaysCompleted? && Moves(s, e, s')
    ensures step.None? ==> Mild(s, s')
    ensures step.Some? ==>
              && MoneyStep(s, e, step.value) && Possible(mid.store, step.value)
              && Mild(s, mid) && Mild(Do(mid, step.value), s')
  {
    var n, r, f := e.node, e.report, e.findings;
    mid, step := s, None;
    if r.attempt in s.duplicates {
      mid, step := VerdictMoney(s, e, s');
    } else if f.verified && Metering.Plausible(UsedRequest(s, r.job), r.payload) {
      step := Some(Complete(CompletionOf(r), e.now, e.creditHold, e.prices));
      FinishedMild(s, n, r, f.sampled, e.now, e.creditHold, e.prices, e.world);
    } else {
      RefusedMild(s, e, s');
    }
  }

  lemma RefusedMild(s: Service, e: Event, s': Service)
    requires e.SaysCompleted? && Moves(s, e, s') && e.report.attempt !in s.duplicates
    requires !(e.findings.verified && Metering.Plausible(UsedRequest(s, e.report.job), e.report.payload))
    ensures Mild(s, s')
  {
    MildStep(s, FailWhole(e.report.job, Some(e.report.attempt), e.now), s');
  }

  lemma QuietEvent(s: Service, e: Event, s': Service)
    requires Moves(s, e, s') && !e.SaysCompleted? && !e.PayoutStep? && !e.Chat? && !e.AsyncJob?
    ensures Mild(s, s')
  {
    if e.Detach? {
      if e.node in s.sessions && s.sessions[e.node] == e.session && e.node in s.active {
        var gone := s.(sessions := s.sessions - {e.node}, active := s.active - {e.node});
        FailureMild(gone, e.node, s.active[e.node].job, s.active[e.node].attempt, true, e.now, e.worlds, e.world);
        MildTwice(s, gone, s');
      }
    } else if e.SaysRejected? || e.SaysFailed? {
      if e.attempt in s.duplicates {
        MildStep(s, VerifyFailed(e.job, e.attempt, e.now), s');
      } else {
        FailureMild(s, e.node, e.job, e.attempt, e.retryable, e.now, e.worlds, e.world);
      }
    } else if e.WaitTimeout? {
      MildStep(s, FailWhole(e.job, None, e.now), s');
    } else if IsPlain(e) {
      MildStep(s, PlainStep(e), s');
    }
  }

  lemma AbandonedMild(s: Service, j: JobId, now: Time)
    ensures Mild(s, RemoveRun(s, j)) && Mild(s, Do(RemoveRun(s, j), FailWhole(j, None, now)))
  {
    ForgetMild(s, j);
    MildStep(s, FailWhole(j, None, now), Do(RemoveRun(s, j), FailWhole(j, None, now)));
  }

  lemma ChatMild(s: Service, e: Event, s': Service)
    requires e.Chat? && Moves(s, e, s')
    ensures Mild(Registered(s, e.org, e.request, e.deadline), s')
  {
    var j := |s.store.jobs|;
    var registered := Registered(s, e.org, e.request, e.deadline);
    AttemptMild(registered, j, e.now, e.worlds, e.world);
    var tried := ScheduleAttempt(registered, j, e.now, e.worlds, e.world).0;
    AbandonedMild(tried, j, e.now);
    if s' != tried {
      MildTwice(registered, tried, s');
    }
  }

  /** Every event moves money through at most one store step, and through a completion only after the check. */
  lemma EventMoney(s: Service, e: Event, s': Service) returns (mid: State, step: Option<Step>)
    requires Moves(s, e, s')
    ensures step.None? ==> s'.store.ledger == s.store.ledger
    ensures step.Some? ==> MoneyStep(s, e, step.value) && Possible(mid, step.value) && mid.ledger == s.store.ledger
                           && s'.store.ledger == Next(mid, step.value).ledger
  {
    mid, step := s.store, None;
    if e.SaysCompleted? {
      var service;
      service, step := CompletionMoney(s, e, s');
      mid := service.store;
    } else if e.PayoutStep? {
      step := Some(Payouts(e.step));
    } else if e.Chat? {
      ChatMild(s, e, s');
    } else if !e.AsyncJob? {
      QuietEvent(s, e, s');
    }
  }

  // ---------------------------------------------------------------- requests

  /** Runs and pending checks carry the request of their job. */
  ghost predicate RequestsOk(s: Service) {
    && (forall j | j in s.runs :: j < |s.store.jobs| && s.runs[j].request == s.store.jobs[j].request)
    && (forall a | a in s.duplicates ::
          && s.duplicates[a].job < |s.store.jobs|
          && s.duplicates[a].request == s.store.jobs[s.duplicates[a].job].request)
  }

  lemma MildKeepsRequests(s: Service, s': Service)
    requires RequestsOk(s) && Mild(s, s')
    ensures RequestsOk(s')
  {
    forall a | a in s'.duplicates
      ensures s'.duplicates[a].job < |s'.store.jobs|
              && s'.duplicates[a].request == s'.store.jobs[s'.duplicates[a].job].request
    {
      assert OldOrOwn(s, s'.duplicates[a], a);
    }
  }

  lemma DoKeepsRequests(s: Service, step: Step)
    requires RequestsOk(s) && Possible(s.store, step)
    ensures RequestsOk(Do(s, step))
  {
    JobsBilling.StepKeepsRequests(s.store, step);
  }

  lemma EventKeepsRequests(s: Service, e: Event, s': Service)
    requires RequestsOk(s) && Moves(s, e, s')
    ensures RequestsOk(s')
  {
    if e.SaysCompleted? {
      var mid, step := CompletionMoney(s, e, s');
      if step.Some? {
        MildKeepsRequests(s, mid);
        DoKeepsRequests(mid, step.value);
        MildKeepsRequests(Do(mid, step.value), s');
      } else {
        MildKeepsRequests(s, s');
      }
    } else if e.PayoutStep? || e.AsyncJob? {
      DoKeepsRequests(s, PlainStep(e));
    } else if e.Chat? {
      var registered := Registered(s, e.org, e.request, e.deadline);
      DoKeepsRequests(s, NewJob(e.org, e.request));
      ChatMild(s, e, s');
      MildKeepsRequests(registered, s');
    } else {
      QuietEvent(s, e, s');
      MildKeepsRequests(s, s');
    }
  }

  lemma NoRequestsYet(s: Service)
    requires s.runs == map[] && s.duplicates == map[]
    ensures RequestsOk(s)
  {
  }

  lemma NextRequests(states: seq<Service>, events: seq<Event>, k: nat)
    requires IsHistory(states, events) && k < |events| && RequestsOk(states[k])
    ensures RequestsOk(states[k + 1])
  {
    assert EventAt(states, events, k);
    EventKeepsRequests(states[k], events[k], states[k + 1]);
  }

  lemma {:induction false} RequestsInEveryHistory(states: seq<Service>, events: seq<Event>, k: nat)
    requires IsHistory(states, events) && k < |states|
    ensures RequestsOk(states[k])
  {
    if k == 0 {
      NoRequestsYet(states[0]);
    } else {
      RequestsInEveryHistory(states, events, k - 1);
      NextRequests(states, events, k - 1);
    }
  }

  /**
   A completion is held against its job's own request if and only if the run is there, or that request is
   empty anyway.
   */
  lemma OwnRequestIff(states: seq<Service>, events: seq<Event>, k: nat, j: JobId)
    requires IsHistory(states, events) && k < |states| && j < |states[k].store.jobs|
    ensures UsedRequest(states[k], j) == states[k].store.jobs[j].request
            <==> j in states[k].runs || states[k].store.jobs[j].request == Metering.NO_REQUEST
  {
    RequestsInEveryHistory(states, events, k);
  }

  /** A check is always held against the request of the job it checks. */
  lemma ChecksUseTheirJobsRequest(states: seq<Service>, events: seq<Event>, k: nat, a: AttemptId)
    requires IsHistory(states, events) && k < |states| && a in states[k].duplicates
    ensures states[k].duplicates[a].job < |states[k].store.jobs|
    ensures states[k].duplicates[a].request == states[k].store.jobs[states[k].duplicates[a].job].request
  {
    RequestsInEveryHistory(states, events, k);
  }

  // ---------------------------------------------------------------- credits

  /** The completion that earned a hold its credit passed the check, and the credit is the price of what it reported. */
  ghost predicate Earned(s: Service, e: Event, h: Ledger.Hold) {
    && e.SaysCompleted? && e.report.job == h.job && e.report.attempt == h.attempt
    && e.prices.Some? && h.amount == HostCredit(Metering.UsageOf(e.report.payload), e.prices.value)
    && Metering.Plausible(CheckedAgainst(s, e.report), e.report.payload)
  }

  lemma PayoutsAddNoHold(s: Ledger.State, step: LedgerRuns.Step)
    requires LedgerRuns.Possible(s, step) && !step.Accept? && !step.Verify?
    ensures |LedgerRuns.Next(s, step).holds| == |s.holds|
  {
  }

  /** A posting appends the one hold it credits. */
  lemma PostingEarns(store: State, step: Step, h: nat)
    requires (step.Complete? || step.PostOverhead?) && h < |Next(store, step).ledger.holds|
    ensures var led, hold := store.ledger, Next(store, step).ledger.holds[h];
            if h < |led.holds| then hold == led.holds[h]
            else hold.job == step.completion.job && hold.attempt == step.completion.attempt
                 && step.prices.Some? && hold.amount == HostCredit(step.completion.usage, step.prices.value)
  {
    if step.Complete? {
      CompletionEarns(store, step, h);
    }
  }

  lemma CompletionEarns(store: State, step: Step, h: nat)
    requires step.Complete? && h < |Next(store, step).ledger.holds|
    ensures var led, hold := store.ledger, Next(store, step).ledger.holds[h];
            if h < |led.holds| then hold == led.holds[h]
            else hold.job == step.completion.job && hold.attempt == step.completion.attempt
                 && step.prices.Some? && hold.amount == HostCredit(step.completion.usage, step.prices.value)
  {
  }

  /** One money step, seen from one hold: it was there before, or this completion earned it. */
  lemma HoldsOf(store: State, step: Step, h: nat)
    requires Possible(store, step) && MovesMoney(step) && LedgerInvariant.Inv(store.ledger)
             && h < |Next(store, step).ledger.holds|
    ensures var led, hold := store.ledger, Next(store, step).ledger.holds[h];
            if h < |led.holds| then hold == led.holds[h].(state := hold.state, batch := hold.batch)
            else (step.Complete? || step.PostOverhead?)
                 && hold.job == step.completion.job && hold.attempt == step.completion.attempt
                 && step.prices.Some? && hold.amount == HostCredit(step.completion.usage, step.prices.value)
  {
    if step.Payouts? {
      PayoutsAddNoHold(store.ledger, step.step);
      LedgerRuns.StepMovesHold(store.ledger, step.step, h);
    } else {
      PostingEarns(store, step, h);
    }
  }

  lemma EventHolds(s: Service, e: Event, s': Service, h: nat)
    requires Moves(s, e, s') && LedgerInvariant.Inv(s.store.ledger) && h < |s'.store.ledger.holds|
    ensures var hold := s'.store.ledger.holds[h];
            if h < |s.store.ledger.holds|
            then hold == s.store.ledger.holds[h].(state := hold.state, batch := hold.batch)
            else Earned(s, e, hold)
  {
    var mid, step := EventMoney(s, e, s');
    if step.Some? {
      HoldsOf(mid, step.value, h);
    }
  }

  /**
   In every history, every credit a host holds was earned by a completion that passed the check, and
   is bounded by the request that completion was held against, whatever was reported at whatever price.
   */
  lemma {:induction false} CreditsAreBounded(states: seq<Service>, events: seq<Event>, k: nat, h: nat) returns (i: nat)
    requires IsHistory(states, events) && k < |states| && h < |states[k].store.ledger.holds|
    ensures i < k && Earned(states[i], events[i], states[k].store.ledger.holds[h])
    ensures states[k].store.ledger.holds[h].amount * MILLION
            <= Exact(Metering.CompletionLimit(CheckedAgainst(states[i], events[i].report)), events[i].prices.value.host)
              + HALF_MILLION
    decreases k
  {
    assert |states[0].store.ledger.holds| == 0;
    assert EventAt(states, events, k - 1);
    DispatchStore.BillingInEveryHistory(states, events, k - 1);
    EventHolds(states[k - 1], events[k - 1], states[k], h);
    if h < |states[k - 1].store.ledger.holds| {
      i := CreditsAreBounded(states, events, k - 1, h);
    } else {
      i := k - 1;
    }
    Metering.HostCreditBounded(CheckedAgainst(states[i], events[i].report), events[i].report.payload,
      events[i].prices.value);
  }
}
