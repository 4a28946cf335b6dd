/**
 The job service as the coordinator runs it: maps updated in place by handlers, filtering loops
 over candidates, and a loop over expired leases that may schedule again. Every handler takes the
 service from one state to exactly the state the dispatch model gives.
 */
module DispatchService {
  import opened Options
  import opened Charges
  import opened Jobs
  import opened Dispatch
  import JobStore
  import Metering

  /** The eligibility query's clause on attempts, then the filtering loop of the scheduler. */
  method FilterCandidates(attempts: seq<Attempt>, sessions: map<NodeId, SessionId>, active: map<NodeId, ActiveJob>,
                          excluded: set<NodeId>, candidates: seq<Candidate>) returns (filtered: seq<Candidate>)
    ensures filtered == Filter(attempts, sessions, active, excluded, candidates)
  {
    filtered := [];
    for i := 0 to |candidates|
      invariant filtered == Filter(attempts, sessions, active, excluded, candidates[..i])
    {
      assert candidates[..i + 1][..i] == candidates[..i];
      var c := candidates[i];
      if Occupied(attempts, c.node) || c.node in excluded { continue; }
      if c.node !in sessions || sessions[c.node] != c.session { continue; }
      if c.node in active { continue; }
      filtered := filtered + [c];
    }
    assert candidates[..|candidates|] == candidates;
  }

  lemma OneMoreExpired(s: Service, ids: seq<AttemptId>, worlds: seq<World>, now: Time, k: nat)
    requires k < |ids|
    ensures HandleAllExpired(s, ids[..k + 1], worlds, now)
            == HandleExpired(HandleAllExpired(s, ids[..k], worlds, now), ids[k], WorldAt(worlds, k), now)
  {
    assert ids[..k + 1][..k] == ids[..k];
  }

  class Dispatcher {
    const store: JobStore.Store
    var sessions: map<NodeId, SessionId>
    var active: map<NodeId, ActiveJob>
    var runs: map<JobId, RunState>
    var duplicates: map<AttemptId, Duplicate>

    ghost function View(): Service
      reads this, store, store.ledger
    {
      Service(store.View(), sessions, active, runs, duplicates)
    }

    constructor (store: JobStore.Store)
      requires store.View() == EMPTY
      ensures View() == IDLE && this.store == store
    {
      this.store := store;
      sessions, active, runs, duplicates := map[], map[], map[], map[];
    }

    method AttachSession(n: NodeId, session: SessionId)
      modifies this`sessions
      ensures View() == Handle(old(View()), Attach(n, session))
    {
      sessions := sessions[n := session];
    }

    method OfferJob(j: JobId, n: NodeId, w: World) returns (outcome: Outcome)
      requires j in runs
      modifies this`runs, this`active, store`jobs, store`attempts
      ensures View() == OfferTo(old(View()), j, n, w).0
      ensures outcome == OfferTo(old(View()), j, n, w).1
    {
      var deadline := runs[j].deadline;
      runs := runs[j := runs[j].(attempts := runs[j].attempts + 1)];
      var created := store.CreateAttempt(j, n, LeaseEnd(w), deadline, w.storedAt);
      if created.Err? {
        active := active - {n};
        return Broke;
      }
      if w.delivered {
        active := active[n := ActiveJob(j, created.value)];
        return Scheduled;
      }
      active := active - {n};
      var _ := store.FailAttempt(j, created.value, w.now);
      outcome := Broke;
    }

    method ScheduleInternal(j: JobId, w: World) returns (outcome: Outcome)
      modifies this`runs, this`active, store`jobs, store`attempts
      ensures View() == Dispatch.ScheduleInternal(old(View()), j, w).0
      ensures outcome == Dispatch.ScheduleInternal(old(View()), j, w).1
    {
      if j !in runs { return Broke; }
      var filtered := FilterCandidates(store.attempts, sessions, active, runs[j].excluded, w.candidates);
      var choice := Choose(filtered, w.preference);
      if choice.None? { return NoCapacity; }
      outcome := OfferJob(j, choice.value.node, w);
    }

    method PrepareRetry(j: JobId, failedNode: NodeId) returns (ok: bool)
      modifies this`runs
      ensures ok <==> MayRetry(old(View()), j)
      ensures View() == if ok then Dispatch.PrepareRetry(old(View()), j, failedNode) else old(View())
    {
      if j !in runs || runs[j].attempts >= 2 { return false; }
      runs := runs[j := runs[j].(excluded := runs[j].excluded + {failedNode})];
      ok := true;
    }

    /** Fail the job and, when the store agrees, forget its run. */
    method GiveUp(j: JobId, a: AttemptId, now: Time)
      modifies this`runs, store`jobs, store`attempts
      ensures View() == Dispatch.GiveUp(old(View()), j, a, now)
    {
      var failed := store.FailJob(j, Some(a), now);
      if failed.Err? { return; }
      runs := runs - {j};
    }

    method HandleExpiredAttempt(a: AttemptId, w: World, now: Time)
      modifies this`runs, this`active, store`jobs, store`attempts
      ensures View() == HandleExpired(old(View()), a, w, now)
    {
      if a >= |store.attempts| { return; }
      var j, n := store.attempts[a].job, store.attempts[a].node;
      active := active - {n};
      var retry := PrepareRetry(j, n);
      if retry {
        var outcome := ScheduleInternal(j, w);
        if outcome == Scheduled { return; }
      }
      GiveUp(j, a, now);
    }

    method ExpireLeases(now: Time, worlds: seq<World>)
      modifies this`runs, this`active, store`jobs, store`attempts
      ensures View() == ExpireAndRetry(old(View()), now, worlds)
    {
      var ids := store.ExpireLeases(now);
      ghost var start := Do(old(View()), Expire(now));
      var k := 0;
      while k < |ids|
        invariant k <= |ids| && View() == HandleAllExpired(start, ids[..k], worlds, now)
      {
        OneMoreExpired(start, ids, worlds, now, k);
        HandleExpiredAttempt(ids[k], WorldAt(worlds, k), now);
        k := k + 1;
      }
      assert ids[..|ids|] == ids;
    }

    method ScheduleAttempt(j: JobId, now: Time, worlds: seq<World>, w: World) returns (outcome: Outcome)
      modifies this`runs, this`active, store`jobs, store`attempts
      ensures View() == Dispatch.ScheduleAttempt(old(View()), j, now, worlds, w).0
      ensures outcome == Dispatch.ScheduleAttempt(old(View()), j, now, worlds, w).1
    {
      ExpireLeases(now, worlds);
      outcome := ScheduleInternal(j, w);
    }

    method HandleAttemptFailure(n: NodeId, j: JobId, a: AttemptId, transient: bool, now: Time, worlds: seq<World>,
                                w: World)
      modifies this`runs, this`active, store`jobs, store`attempts
      ensures View() == HandleFailure(old(View()), n, j, a, transient, now, worlds, w)
    {
      active := active - {n};
      var retry := false;
      if transient {
        retry := PrepareRetry(j, n);
      }
      if retry {
        FailAndRetry(j, a, now, worlds, w);
      } else {
        GiveUp(j, a, now);
      }
    }

    /** The retry of a transient failure, once the failed node is excluded. */
    method FailAndRetry(j: JobId, a: AttemptId, now: Time, worlds: seq<World>, w: World)
      modifies this`runs, this`active, store`jobs, store`attempts
      ensures View() == Retried(old(View()), j, a, now, worlds, w)
    {
      var failed := store.FailAttempt(j, a, now);
      if failed.Err? { return; }
      assert View() == Do(old(View()), FailOne(j, a, now));
      var outcome := ScheduleAttempt(j, now, worlds, w);
      if outcome == Scheduled { return; }
      GiveUp(j, a, now);
    }

    method DetachSession(n: NodeId, session: SessionId, now: Time, worlds: seq<World>, w: World)
      modifies this`sessions, this`runs, this`active, store`jobs, store`attempts
      ensures View() == HandleDetach(old(View()), n, session, now, worlds, w)
    {
      if n !in sessions || sessions[n] != session { return; }
      sessions := sessions - {n};
      if n in active {
        var lost := active[n];
        active := active - {n};
        HandleAttemptFailure(n, lost.job, lost.attempt, true, now, worlds, w);
      } else {
        active := active - {n};
      }
    }

    /** A synchronous request up to the point where it waits for its result. */
    method Schedule(org: OrgId, request: Metering.Request, deadline: Time, now: Time, worlds: seq<World>, w: World)
      modifies this`runs, this`active, store`jobs, store`attempts
      ensures View() == HandleChat(old(View()), org, request, deadline, now, worlds, w)
    {
      var j := store.CreateJob(org, request);
      runs := runs[j := RunState(request, deadline, {}, 0)];
      assert View() == Registered(old(View()), org, request, deadline);
      var outcome := ScheduleAttempt(j, now, worlds, w);
      if outcome == Scheduled { return; }
      runs := runs - {j};
      if outcome == NoCapacity {
        var _ := store.FailJob(j, None, now);
      }
    }

    method AbandonWait(j: JobId, now: Time)
      modifies this`runs, store`jobs, store`attempts
      ensures View() == Handle(old(View()), WaitTimeout(j, now))
    {
      runs := runs - {j};
      var _ := store.FailJob(j, None, now);
    }

    method HandleRejectedOrFailed(n: NodeId, j: JobId, a: AttemptId, retryable: bool, now: Time, worlds: seq<World>,
                                  w: World)
      modifies this`runs, this`active, this`duplicates, store`jobs, store`attempts
      ensures View() == HandleRefusal(old(View()), n, j, a, retryable, now, worlds, w)
    {
      if a in duplicates {
        active := active - {n};
        duplicates := duplicates - {a};
        var _ := store.MarkVerificationAttemptFailed(j, a, now);
      } else {
        HandleAttemptFailure(n, j, a, retryable, now, worlds, w);
      }
    }

    method OfferCheck(n: NodeId, producer: NodeId, r: Report, request: Metering.Request, w: World)
      modifies this`active, this`duplicates, store`attempts
      ensures View() == Dispatch.OfferCheck(old(View()), n, producer, r, request, w)
    {
      var created := store.CreateVerificationAttempt(r.job, n, LeaseEnd(w), VerificationDeadline(w), w.storedAt);
      if created.Err? { return; }
      var a := created.value;
      if w.delivered {
        active := active[n := ActiveJob(r.job, a)];
        duplicates := duplicates[a := Duplicate(r.job, r.attempt, producer, request, ContentOf(r))];
      } else {
        active := active - {n};
        duplicates := duplicates - {a};
        var _ := store.MarkVerificationAttemptFailed(r.job, a, w.now);
      }
    }

    method StartDuplicate(producer: NodeId, r: Report, request: Metering.Request, w: World)
      modifies this`active, this`duplicates, store`attempts
      ensures View() == Dispatch.StartDuplicate(old(View()), producer, r, request, w)
    {
      var filtered := FilterCandidates(store.attempts, sessions, active, {producer}, w.candidates);
      var choice := Choose(filtered, w.preference);
      if choice.None? { return; }
      OfferCheck(choice.value.node, producer, r, request, w);
    }

    /** Mark the verification attempt; false when the store does not know it. */
    method GiveVerdict(r: Report, agrees: bool, now: Time) returns (known: bool)
      modifies store`attempts
      ensures var verdict := if agrees then Verify(r.job, r.attempt, now) else VerifyFailed(r.job, r.attempt, now);
              View() == Do(old(View()), verdict)
      ensures known <==> r.attempt < |old(store.attempts)|
    {
      var marked;
      if agrees {
        marked := store.MarkVerificationAttemptCompleted(r.job, r.attempt, now);
      } else {
        marked := store.MarkVerificationAttemptFailed(r.job, r.attempt, now);
      }
      known := marked.Ok?;
    }

    method HandleDuplicateCompletion(n: NodeId, r: Report, verified: bool, now: Time, creditHold: int,
                                     prices: Option<Prices>)
      requires r.attempt in duplicates
      modifies this`active, this`duplicates, store`attempts, store.ledger
      ensures View() == Dispatch.HandleDuplicateCompletion(old(View()), n, r, verified, now, creditHold, prices)
    {
      var dup := duplicates[r.attempt];
      duplicates := duplicates - {r.attempt};
      active := active - {n};
      if !verified {
        var _ := GiveVerdict(r, false, now);
        return;
      }
      var _, plausible := Metering.ValidateCompletionForAcceptance(dup.request, r.payload);
      var known := GiveVerdict(r, plausible && ContentOf(r) == dup.expected, now);
      if known && plausible {
        var _ := store.PostVerificationOverhead(CompletionOf(r), now, creditHold, prices);
      }
    }

    /** The request a completion is checked against: the run's, or the zero request when there is no run. */
    method RequestFor(j: JobId) returns (request: Metering.Request)
      ensures request == UsedRequest(View(), j)
    {
      request := Metering.NO_REQUEST;
      if j in runs {
        request := runs[j].request;
      }
    }

    /** Bill a verified, plausible completion and, when sampled, have it checked. */
    method Finish(n: NodeId, r: Report, sampled: bool, now: Time, creditHold: int, prices: Option<Prices>, w: World)
      modifies this`runs, this`active, this`duplicates, store, store.ledger
      ensures View() == Finished(old(View()), n, r, sampled, now, creditHold, prices, w)
    {
      var request := RequestFor(r.job);
      var sample := r.job in runs && sampled;
      var completed := store.CompleteJob(CompletionOf(r), now, creditHold, prices);
      active := active - {n};
      if completed.Err? { return; }
      if sample {
        StartDuplicate(n, r, request, w);
      }
      runs := runs - {r.job};
    }

    method HandleCompleted(n: NodeId, r: Report, f: Findings, now: Time, creditHold: int, prices: Option<Prices>,
                           w: World)
      modifies this`runs, this`active, this`duplicates, store, store.ledger
      ensures View() == HandleCompletion(old(View()), n, r, f, now, creditHold, prices, w)
    {
      if r.attempt in duplicates {
        HandleDuplicateCompletion(n, r, f.verified, now, creditHold, prices);
        return;
      }
      var request := RequestFor(r.job);
      var _, plausible := Metering.ValidateCompletionForAcceptance(request, r.payload);
      if !f.verified || !plausible {
        active := active - {n};
        var _ := store.FailJob(r.job, Some(r.attempt), now);
        runs := runs - {r.job};
        return;
      }
      Finish(n, r, f.sampled, now, creditHold, prices, w);
    }
  }
}
