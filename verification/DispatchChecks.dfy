/**
 How often a result is checked, whatever the messages say: at most once, only for an accepted result,
 and with at most one verification cost.
 */
module DispatchChecks {
  import opened Options
  import opened Sums
  import opened Charges
  import opened Jobs
  import opened JobsBilling
  import opened Dispatch
  import opened DispatchExclusive
  import opened DispatchAttempts
  import opened DispatchStore
  import Metering

  // ---------------------------------------------------------------- store steps that check nothing

  /** No check and no cost more, no result fewer, and rows keep their identity. */
  ghost predicate Unchecked(store: State, store': State) {
    && |store'.attempts| >= |store.attempts|
    && (forall a | 0 <= a < |store.attempts| :: SameAttempt(store.attempts[a], store'.attempts[a]))
    && (forall j: JobId :: Verifiers(store', j) == Verifiers(store, j) && Costs(store', j) == Costs(store, j))
    && (forall j: JobId :: Results(store, j) <= Results(store', j))
  }

  lemma UncheckedTwice(a: State, b: State, c: State)
    requires Unchecked(a, b) && Unchecked(b, c)
    ensures Unchecked(a, c)
  {
    forall r | 0 <= r < |a.attempts| ensures SameAttempt(a.attempts[r], c.attempts[r]) {
      assert SameAttempt(a.attempts[r], b.attempts[r]) && SameAttempt(b.attempts[r], c.attempts[r]);
    }
    forall j: JobId
      ensures Verifiers(c, j) == Verifiers(a, j) && Costs(c, j) == Costs(a, j) && Results(a, j) <= Results(c, j)
    {
      assert Verifiers(b, j) == Verifiers(a, j) && Results(a, j) <= Results(b, j);
    }
  }

  lemma CalmUnchecked(store: State, store': State)
    requires Calm(store, store')
    ensures Unchecked(store, store')
  {
    forall j: JobId ensures Verifiers(store', j) == Verifiers(store, j) {
      CalmCounts(store, store', j);
    }
  }

  lemma OfferUnchecked(store: State, step: Step)
    requires step.Offer?
    ensures Unchecked(store, Next(store, step))
  {
    var store' := Next(store, step);
    if step.job < |store.jobs| {
      OfferAdds(store, step);
      forall j: JobId ensures Verifiers(store', j) == Verifiers(store, j) {
        AddedCounts(store, store', store'.attempts[|store.attempts|], j);
      }
    }
  }

  lemma CompletionUnchecked(store: State, step: Step)
    requires step.Complete?
    ensures Unchecked(store, Next(store, step))
  {
    var store', c := Next(store, step), step.completion;
    if CompleteJob(store, c, step.at, step.creditHold, step.prices).Ok? {
      CompletionCompletes(store, c, step.at, step.creditHold, step.prices);
      forall j: JobId ensures Verifiers(store', j) == Verifiers(store, j) && Results(store, j) <= Results(store', j) {
        CompletedCounts(store, store', c, j);
        CompletionBills(store, c, step.at, step.creditHold, step.prices, j);
      }
    }
  }

  lemma StepUnchecked(store: State, step: Step)
    requires Possible(store, step) && !IsCheck(step)
    ensures Unchecked(store, Next(store, step))
  {
    if step.Offer? {
      OfferUnchecked(store, step);
    } else if step.Complete? {
      CompletionUnchecked(store, step);
    } else {
      CalmStepIsCalm(store, step);
      CalmUnchecked(store, Next(store, step));
    }
  }

  lemma {:induction false} RunUnchecked(states: seq<State>, steps: seq<Step>, k: nat)
    requires IsRun(states, steps) && k < |states| && forall n | 0 <= n < |steps| :: !IsCheck(steps[n])
    ensures Unchecked(states[0], states[k])
  {
    if k > 0 {
      RunUnchecked(states, steps, k - 1);
      assert StepAt(states, steps, k - 1);
      StepUnchecked(states[k - 1], steps[k - 1]);
      UncheckedTwice(states[0], states[k - 1], states[k]);
    }
  }

  lemma ReachedUnchecked(s: State, s': State)
    requires Reaches(false, s, s')
    ensures Unchecked(s, s')
  {
    var states: seq<State>, steps: seq<Step> :| Leads(false, states, steps, s, s');
    RunUnchecked(states, steps, |steps|);
  }

  // ---------------------------------------------------------------- what every history keeps

  ghost predicate ChecksOk(s: Service) {
    && (forall j: JobId :: Costs(s.store, j) <= Verifiers(s.store, j) <= Results(s.store, j))
    && (forall a | a in s.duplicates :: DuplicateOk(s, a))
  }

  /** Pending checks may go, none is added. */
  ghost predicate FewerPending(s: Service, s': Service) {
    forall a | a in s'.duplicates :: a in s.duplicates && s'.duplicates[a] == s.duplicates[a]
  }

  lemma UncheckedKeeps(s: Service, s': Service)
    requires ChecksOk(s) && Unchecked(s.store, s'.store) && FewerPending(s, s')
    ensures ChecksOk(s')
  {
    forall j: JobId ensures Costs(s'.store, j) <= Verifiers(s'.store, j) <= Results(s'.store, j) {
      assert Costs(s.store, j) <= Verifiers(s.store, j) <= Results(s.store, j);
      assert Verifiers(s'.store, j) == Verifiers(s.store, j) && Results(s.store, j) <= Results(s'.store, j);
    }
    forall a | a in s'.duplicates ensures DuplicateOk(s', a) {
      assert DuplicateOk(s, a);
      assert SameAttempt(s.store.attempts[a], s'.store.attempts[a]);
      assert Verifiers(s'.store, s.duplicates[a].job) == Verifiers(s.store, s.duplicates[a].job);
    }
  }

  // ---------------------------------------------------------------- a check is started

  /** The accepted completion is its job's first, so it had no check before. */
  lemma FirstResult(s: Service, c: Completion, at: Time, hold: int, prices: Option<Prices>, completed: Service)
    requires ChecksOk(s) && BilledOnce(s.store) && CompleteJob(s.store, c, at, hold, prices).Ok?
    requires completed.store == Next(s.store, Complete(c, at, hold, prices)) && completed.duplicates == s.duplicates
    ensures ChecksOk(completed) && Results(completed.store, c.job) == 1
    ensures Verifiers(completed.store, c.job) <= 0 && Costs(completed.store, c.job) <= 0
  {
    StepUnchecked(s.store, Complete(c, at, hold, prices));
    UncheckedKeeps(s, completed);
    CompletionBills(s.store, c, at, hold, prices, c.job);
    assert Results(s.store, c.job) == Acceptances(s.store, c.job) <= 1;
    StepKeepsBilling(s.store, Complete(c, at, hold, prices));
    assert Results(completed.store, c.job) <= 1;
    assert Costs(s.store, c.job) <= Verifiers(s.store, c.job) <= Results(s.store, c.job);
  }

  lemma CheckAdded(s: Service, j: JobId, row: Attempt, dup: Duplicate, s': Service)
    requires ChecksOk(s) && Verifiers(s.store, j) <= 0 && Costs(s.store, j) <= 0 && Results(s.store, j) == 1
    requires Adds(s.store, s'.store, row) && row.job == j && row.kind == Verification && dup.job == j
    requires s'.duplicates == s.duplicates[|s.store.attempts| := dup] || FewerPending(s, s')
    ensures ChecksOk(s')
  {
    var a := |s.store.attempts|;
    forall i: JobId ensures Verifiers(s'.store, i) == Verifiers(s.store, i) + VerifierFor(i)(row) {
      AddedCounts(s.store, s'.store, row, i);
    }
    forall i: JobId ensures Costs(s'.store, i) <= Verifiers(s'.store, i) <= Results(s'.store, i) {
      assert Costs(s.store, i) <= Verifiers(s.store, i) <= Results(s.store, i);
    }
    SumAtLeast(s'.store.attempts, VerifierFor(j), a);
    forall b | b in s'.duplicates ensures DuplicateOk(s', b) {
      if b != a {
        assert DuplicateOk(s, b);
        assert Verifiers(s'.store, s.duplicates[b].job)
               == Verifiers(s.store, s.duplicates[b].job) + VerifierFor(s.duplicates[b].job)(row);
      }
    }
  }

  lemma StartedOk(s: Service, producer: NodeId, r: Report, request: Metering.Request, w: World, s': Service)
    requires ChecksOk(s) && Results(s.store, r.job) == 1
    requires Verifiers(s.store, r.job) <= 0 && Costs(s.store, r.job) <= 0
    requires s' == StartDuplicate(s, producer, r, request, w)
    ensures ChecksOk(s')
  {
    var choice := Choose(Filter(s.store.attempts, s.sessions, s.active, {producer}, w.candidates), w.preference);
    if choice.Some? && r.job < |s.store.jobs| {
      OfferedOk(s, choice.value.node, producer, r, request, w, s');
    }
  }

  lemma OfferedOk(s: Service, n: NodeId, producer: NodeId, r: Report, request: Metering.Request, w: World, s': Service)
    requires ChecksOk(s) && r.job < |s.store.jobs| && Results(s.store, r.job) == 1
    requires Verifiers(s.store, r.job) <= 0 && Costs(s.store, r.job) <= 0
    requires s' == OfferCheck(s, n, producer, r, request, w)
    ensures ChecksOk(s')
  {
    var a := |s.store.attempts|;
    var offer := OfferVerification(r.job, n, LeaseEnd(w), VerificationDeadline(w), w.storedAt);
    var dup := Duplicate(r.job, r.attempt, producer, request, ContentOf(r));
    var created := Do(s, offer);
    OfferAdds(s.store, offer);
    if w.delivered {
      CheckAdded(s, r.job, created.store.attempts[a], dup, s');
    } else {
      CheckAdded(s, r.job, created.store.attempts[a], dup, created);
      StepUnchecked(created.store, VerifyFailed(r.job, a, w.now));
      UncheckedKeeps(created, s');
    }
  }

  lemma FinishedOk(s: Service, n: NodeId, r: Report, sampled: bool, now: Time, hold: int, prices: Option<Prices>,
                   w: World, s': Service)
    requires ChecksOk(s) && BilledOnce(s.store) && s' == Finished(s, n, r, sampled, now, hold, prices, w)
    ensures ChecksOk(s')
  {
    var c := CompletionOf(r);
    var completed := ClearActive(Do(s, Complete(c, now, hold, prices)), n);
    StepUnchecked(s.store, Complete(c, now, hold, prices));
    UncheckedKeeps(s, completed);
    if CompleteJob(s.store, c, now, hold, prices).Ok? {
      FirstResult(s, c, now, hold, prices, completed);
      var ended := completed;
      if r.job in s.runs && sampled {
        ended := StartDuplicate(completed, n, r, s.runs[r.job].request, w);
        StartedOk(completed, n, r, s.runs[r.job].request, w, ended);
      }
      RunGoneOk(ended, r.job, s');
    }
  }

  lemma RunGoneOk(s: Service, j: JobId, s': Service)
    requires ChecksOk(s) && s' == RemoveRun(s, j)
    ensures ChecksOk(s')
  {
    forall a | a in s'.duplicates ensures DuplicateOk(s', a) {
      assert DuplicateOk(s, a);
    }
  }

  // ---------------------------------------------------------------- a check is over

  /** A cost is posted only for the job of the attempt that was named, and for no other. */
  lemma CostsPosted(store: State, c: Completion, at: Time, hold: int, prices: Option<Prices>, i: JobId)
    ensures var store' := Next(store, PostOverhead(c, at, hold, prices));
            && store' == store.(ledger := store'.ledger)
            && Costs(store', i) <= Costs(store, i) + (if i == c.job && Names(store, c.job, c.attempt) then 1 else 0)
  {
    OverheadCosts(store, c, at, hold, prices, i);
  }

  /** With at most one result a job has at most one pending check. */
  lemma OnlyPending(s: Service, a: AttemptId, b: AttemptId)
    requires ChecksOk(s) && BilledOnce(s.store) && a in s.duplicates && b in s.duplicates
             && s.duplicates[a].job == s.duplicates[b].job
    ensures a == b
  {
    var j := s.duplicates[a].job;
    assert DuplicateOk(s, a) && DuplicateOk(s, b);
    assert Verifiers(s.store, j) <= Results(s.store, j) && Results(s.store, j) == Acceptances(s.store, j) <= 1;
    if a < b {
      SumAtLeastTwo(s.store.attempts, VerifierFor(j), a, b);
    } else if b < a {
      SumAtLeastTwo(s.store.attempts, VerifierFor(j), b, a);
    }
  }

  /** Posting the cost of a check whose entry is gone. */
  lemma CostOk(s: Service, c: Completion, at: Time, hold: int, prices: Option<Prices>, s': Service)
    requires ChecksOk(s) && s'.store == Next(s.store, PostOverhead(c, at, hold, prices))
             && s'.duplicates == s.duplicates
    requires Names(s.store, c.job, c.attempt) ==>
               Costs(s.store, c.job) < Verifiers(s.store, c.job) && forall b | b in s.duplicates ::
                 s.duplicates[b].job != c.job
    ensures ChecksOk(s')
  {
    forall i: JobId ensures Costs(s'.store, i) <= Verifiers(s'.store, i) <= Results(s'.store, i) {
      assert Costs(s.store, i) <= Verifiers(s.store, i) <= Results(s.store, i);
      CostsPosted(s.store, c, at, hold, prices, i);
    }
    forall a | a in s'.duplicates ensures DuplicateOk(s', a) {
      assert DuplicateOk(s, a);
      CostsPosted(s.store, c, at, hold, prices, s.duplicates[a].job);
    }
  }

  lemma VerdictOk(s: Service, n: NodeId, r: Report, verified: bool, now: Time, hold: int, prices: Option<Prices>,
                  s': Service)
    requires ChecksOk(s) && BilledOnce(s.store) && r.attempt in s.duplicates
    requires s' == HandleDuplicateCompletion(s, n, r, verified, now, hold, prices)
    ensures ChecksOk(s')
  {
    var a := r.attempt;
    var verdict := Verdict(s.duplicates[a], r, verified, now);
    var marked := Do(ClearActive(RemoveDuplicate(s, a), n), verdict);
    StepUnchecked(s.store, verdict);
    UncheckedKeeps(s, marked);
    assert DuplicateOk(s, a);
    var j := s.duplicates[a].job;
    assert Verifiers(marked.store, j) == Verifiers(s.store, j)
           && SameAttempt(s.store.attempts[a], marked.store.attempts[a]);
    forall b | b in marked.duplicates ensures marked.duplicates[b].job != j {
      if s.duplicates[b].job == j {
        OnlyPending(s, a, b);
      }
    }
    if verified && a < |s.store.attempts| && Dispatch.Plausible(s.duplicates[a], r) {
      CostOk(marked, CompletionOf(r), now, hold, prices, s');
    }
  }

  // ---------------------------------------------------------------- every history

  lemma CompletionOk(s: Service, e: Event, s': Service)
    requires ChecksOk(s) && BilledOnce(s.store) && e.SaysCompleted? && Moves(s, e, s')
    ensures ChecksOk(s')
  {
    var r := e.report;
    if r.attempt in s.duplicates {
      VerdictOk(s, e.node, r, e.findings.verified, e.now, e.creditHold, e.prices, s');
    } else if e.findings.verified && Metering.Plausible(UsedRequest(s, r.job), r.payload) {
      FinishedOk(s, e.node, r, e.findings.sampled, e.now, e.creditHold, e.prices, e.world, s');
    } else {
      StepUnchecked(s.store, FailWhole(r.job, Some(r.attempt), e.now));
      UncheckedKeeps(s, s');
    }
  }

  lemma EventOk(s: Service, e: Event, s': Service)
    requires ChecksOk(s) && BilledOnce(s.store) && Moves(s, e, s')
    ensures ChecksOk(s')
  {
    if e.SaysCompleted? {
      CompletionOk(s, e, s');
    } else {
      QuietReaches(s, e, s');
      ReachedUnchecked(s.store, s'.store);
      UncheckedKeeps(s, s');
    }
  }

  lemma NothingChecked(s: Service)
    requires |s.store.attempts| == |s.store.results| == |s.store.ledger.txns| == 0 && s.duplicates == map[]
    ensures ChecksOk(s)
  {
  }

  lemma {:induction false} ChecksInEveryHistory(states: seq<Service>, events: seq<Event>, k: nat)
    requires IsHistory(states, events) && k < |states|
    ensures ChecksOk(states[k])
  {
    if k == 0 {
      NothingChecked(states[0]);
    } else {
      ChecksInEveryHistory(states, events, k - 1);
      BillingInEveryHistory(states, events, k - 1);
      assert EventAt(states, events, k - 1);
      EventOk(states[k - 1], events[k - 1], states[k]);
    }
  }

  /**
   In every history, whatever the messages say: no more verification costs than verification attempts,
   no more of these than accepted results, and of those at most one per job.
   */
  lemma ChecksAreBounded(states: seq<Service>, events: seq<Event>, k: nat, j: JobId)
    requires IsHistory(states, events) && k < |states|
    ensures Costs(states[k].store, j) <= Verifiers(states[k].store, j) <= Results(states[k].store, j) <= 1
  {
    ChecksInEveryHistory(states, events, k);
    BillingInEveryHistory(states, events, k);
    assert Results(states[k].store, j) == Acceptances(states[k].store, j) <= 1;
  }

  // ---------------------------------------------------------------- who checks

  /** The rows added are standard attempts. */
  ghost predicate AddsStandard(store: State, store': State) {
    && |store'.attempts| >= |store.attempts|
    && (forall a | 0 <= a < |store.attempts| :: SameAttempt(store.attempts[a], store'.attempts[a]))
    && (forall a | |store.attempts| <= a < |store'.attempts| :: store'.attempts[a].kind == Standard)
  }

  lemma StepAddsStandard(store: State, step: Step)
    requires Possible(store, step) && !step.OfferVerification?
    ensures AddsStandard(store, Next(store, step))
  {
    AttemptsGrow(store, step);
    forall a | 0 <= a < |store.attempts| ensures SameAttempt(store.attempts[a], Next(store, step).attempts[a]) {
      StepRow(store, step, a);
    }
  }

  lemma {:induction false} RunAddsStandard(states: seq<State>, steps: seq<Step>, k: nat)
    requires IsRun(states, steps) && k < |states| && forall n | 0 <= n < |steps| :: !IsCheck(steps[n])
    ensures AddsStandard(states[0], states[k])
  {
    if k > 0 {
      RunAddsStandard(states, steps, k - 1);
      assert StepAt(states, steps, k - 1);
      StepAddsStandard(states[k - 1], steps[k - 1]);
      AddsStandardTwice(states[0], states[k - 1], states[k]);
    }
  }

  lemma AddsStandardTwice(a: State, b: State, c: State)
    requires AddsStandard(a, b) && AddsStandard(b, c)
    ensures AddsStandard(a, c)
  {
    forall r | 0 <= r < |a.attempts| ensures SameAttempt(a.attempts[r], c.attempts[r]) {
      assert SameAttempt(a.attempts[r], b.attempts[r]) && SameAttempt(b.attempts[r], c.attempts[r]);
    }
    forall r | |a.attempts| <= r < |c.attempts| ensures c.attempts[r].kind == Standard {
      assert r < |b.attempts| ==> SameAttempt(b.attempts[r], c.attempts[r]);
    }
  }

  lemma QuietAddsStandard(s: Service, e: Event, s': Service)
    requires Moves(s, e, s') && !e.SaysCompleted?
    ensures AddsStandard(s.store, s'.store)
  {
    QuietReaches(s, e, s');
    var states: seq<State>, steps: seq<Step> :| Leads(false, states, steps, s.store, s'.store);
    RunAddsStandard(states, steps, |steps|);
  }

  /** The event reports a completion that is accepted, from another node than this row's, for this row's job. */
  ghost predicate Occasions(s: Service, e: Event, row: Attempt) {
    && e.SaysCompleted? && e.report.job == row.job && e.node != row.node
    && CompleteJob(s.store, CompletionOf(e.report), e.now, e.creditHold, e.prices).Ok?
  }

  /** Rows keep their identity, and an added verification attempt is occasioned by this event. */
  ghost predicate AddsOccasioned(s: Service, e: Event, store': State) {
    && |store'.attempts| >= |s.store.attempts|
    && (forall a | 0 <= a < |s.store.attempts| :: SameAttempt(s.store.attempts[a], store'.attempts[a]))
    && (forall a | |s.store.attempts| <= a < |store'.attempts| ::
          store'.attempts[a].kind == Verification ==> Occasions(s, e, store'.attempts[a]))
  }

  lemma StandardOccasioned(s: Service, e: Event, store': State)
    requires AddsStandard(s.store, store')
    ensures AddsOccasioned(s, e, store')
  {
  }

  lemma StepOccasioned(s: Service, e: Event, store: State, step: Step)
    requires AddsOccasioned(s, e, store) && Possible(store, step) && !step.OfferVerification?
    ensures AddsOccasioned(s, e, Next(store, step))
  {
    StepAddsStandard(store, step);
    var store' := Next(store, step);
    forall a | 0 <= a < |s.store.attempts| ensures SameAttempt(s.store.attempts[a], store'.attempts[a]) {
      assert SameAttempt(s.store.attempts[a], store.attempts[a]) && SameAttempt(store.attempts[a], store'.attempts[a]);
    }
    forall a | |s.store.attempts| <= a < |store'.attempts| && store'.attempts[a].kind == Verification
      ensures Occasions(s, e, store'.attempts[a])
    {
      assert SameAttempt(store.attempts[a], store'.attempts[a]);
      assert Occasions(s, e, store.attempts[a]);
    }
  }

  lemma CheckOccasioned(s: Service, e: Event, completed: Service, request: Metering.Request, s': Service)
    requires e.SaysCompleted? && CompleteJob(s.store, CompletionOf(e.report), e.now, e.creditHold, e.prices).Ok?
    requires AddsStandard(s.store, completed.store) && |completed.store.attempts| == |s.store.attempts|
    requires s' == StartDuplicate(completed, e.node, e.report, request, e.world)
    ensures AddsOccasioned(s, e, s'.store)
  {
    var w, r := e.world, e.report;
    var usable := Filter(completed.store.attempts, completed.sessions, completed.active, {e.node}, w.candidates);
    var choice := Choose(usable, w.preference);
    StandardOccasioned(s, e, completed.store);
    if choice.Some? && r.job < |completed.store.jobs| {
      assert choice.value.node != e.node;
      var a := |completed.store.attempts|;
      var offer := OfferVerification(r.job, choice.value.node, LeaseEnd(w), VerificationDeadline(w), w.storedAt);
      OfferAdds(completed.store, offer);
      var created := Next(completed.store, offer);
      assert AddsOccasioned(s, e, created);
      if !w.delivered {
        StepOccasioned(s, e, created, VerifyFailed(r.job, a, w.now));
      }
    }
  }

  lemma CompletionOccasioned(s: Service, e: Event, s': Service)
    requires e.SaysCompleted? && Moves(s, e, s')
    ensures AddsOccasioned(s, e, s'.store)
  {
    var r, c := e.report, CompletionOf(e.report);
    StandardOccasioned(s, e, s.store);
    if r.attempt in s.duplicates {
      var verdict := Verdict(s.duplicates[r.attempt], r, e.findings.verified, e.now);
      StepOccasioned(s, e, s.store, verdict);
      StepOccasioned(s, e, Next(s.store, verdict), PostOverhead(c, e.now, e.creditHold, e.prices));
    } else if e.findings.verified && Metering.Plausible(UsedRequest(s, r.job), r.payload) {
      var completed := ClearActive(Do(s, Complete(c, e.now, e.creditHold, e.prices)), e.node);
      StepOccasioned(s, e, s.store, Complete(c, e.now, e.creditHold, e.prices));
      StepAddsStandard(s.store, Complete(c, e.now, e.creditHold, e.prices));
      AttemptsGrow(s.store, Complete(c, e.now, e.creditHold, e.prices));
      if CompleteJob(s.store, c, e.now, e.creditHold, e.prices).Ok? && r.job in s.runs && e.findings.sampled {
        var request := s.runs[r.job].request;
        CheckOccasioned(s, e, completed, request, StartDuplicate(completed, e.node, r, request, e.world));
      }
    } else {
      StepOccasioned(s, e, s.store, FailWhole(r.job, Some(r.attempt), e.now));
    }
  }

  lemma NextOccasioned(states: seq<Service>, events: seq<Event>, k: nat)
    requires IsHistory(states, events) && k < |events|
    ensures AddsOccasioned(states[k], events[k], states[k + 1].store)
  {
    var s, e, s' := states[k], events[k], states[k + 1];
    assert EventAt(states, events, k);
    if e.SaysCompleted? {
      CompletionOccasioned(s, e, s');
    } else {
      QuietAddsStandard(s, e, s');
      StandardOccasioned(s, e, s'.store);
    }
  }

  lemma SameOccasion(s: Service, e: Event, row: Attempt, row': Attempt)
    requires Occasions(s, e, row) && SameAttempt(row, row')
    ensures Occasions(s, e, row')
  {
  }

  lemma NoRowsYet(states: seq<Service>, events: seq<Event>)
    requires IsHistory(states, events)
    ensures |states[0].store.attempts| == 0
  {
  }

  /**
   In every history, whatever the messages say, a verification attempt was occasioned by an accepted
   completion of its job, and is not on the node that reported it.
   */
  lemma {:induction false} CheckedBySomeoneElse(states: seq<Service>, events: seq<Event>, k: nat, v: AttemptId)
    returns (i: nat)
    requires IsHistory(states, events) && k < |states|
    requires v < |states[k].store.attempts| && states[k].store.attempts[v].kind == Verification
    ensures i < k && Occasions(states[i], events[i], states[k].store.attempts[v])
    decreases k
  {
    NoRowsYet(states, events);
    NextOccasioned(states, events, k - 1);
    var before, row := states[k - 1].store.attempts, states[k].store.attempts[v];
    if v < |before| {
      assert SameAttempt(before[v], row);
      i := CheckedBySomeoneElse(states, events, k - 1, v);
      SameOccasion(states[i], events[i], before[v], row);
    } else {
      i := k - 1;
    }
  }
}
