/**
 How often a job is tried and checked as long as messages name an attempt of their own job: at most
 two standard attempts, at most one verification attempt, only for an accepted result, and at most
 one verification cost in the ledger. If messages also come from the attempt's node, the two attempts
 are on different nodes and no node checks what it produced.
 */
module DispatchAttempts {
  import opened Options
  import opened Sums
  import opened Charges
  import opened Jobs
  import opened JobsBilling
  import opened Dispatch
  import opened DispatchExclusive
  import Ledger
  import Metering

  ghost function StandardFor(j: JobId): Attempt -> int {
    (row: Attempt) => if row.job == j && row.kind == Standard then 1 else 0
  }

  ghost function VerifierFor(j: JobId): Attempt -> int {
    (row: Attempt) => if row.job == j && row.kind == Verification then 1 else 0
  }

  ghost function Standards(store: State, j: JobId): int {
    Sum(store.attempts, StandardFor(j))
  }

  ghost function Verifiers(store: State, j: JobId): int {
    Sum(store.attempts, VerifierFor(j))
  }

  ghost function Costs(store: State, j: JobId): int {
    Sum(store.ledger.txns, Ledger.VerificationOf(j))
  }

  ghost predicate CountsOk(store: State) {
    forall j: JobId :: Standards(store, j) <= 2 && Costs(store, j) <= Verifiers(store, j) <= 1
  }

  ghost predicate NodesDiffer(store: State) {
    forall a, b | 0 <= a < b < |store.attempts| && store.attempts[a].job == store.attempts[b].job
                  && store.attempts[a].kind == Standard && store.attempts[b].kind == Standard ::
      store.attempts[a].node != store.attempts[b].node
  }

  ghost predicate ProducedBy(store: State, j: JobId, n: NodeId) {
    exists r | 0 <= r < |store.results| ::
      store.results[r].job == j && store.results[r].attempt < |store.attempts|
        && store.attempts[store.results[r].attempt].node == n
  }

  /** A verification attempt checks an accepted result; strictly, one that another node produced. */
  ghost predicate VerifierOk(strict: bool, store: State, v: nat)
    requires v < |store.attempts|
  {
    && JobHasResult(store, store.attempts[v].job)
    && (strict ==> !ProducedBy(store, store.attempts[v].job, store.attempts[v].node))
  }

  ghost predicate VerifiersOk(strict: bool, store: State) {
    forall v | 0 <= v < |store.attempts| && store.attempts[v].kind == Verification :: VerifierOk(strict, store, v)
  }

  ghost predicate StoreOk(strict: bool, store: State) {
    && Tables(store) && BilledOnce(store) && CountsOk(store)
    && (strict ==> NodesDiffer(store))
    && VerifiersOk(strict, store)
  }

  ghost predicate RunOk(s: Service, j: JobId)
    requires j in s.runs
  {
    j < |s.store.jobs| && s.runs[j].attempts == Standards(s.store, j) && Verifiers(s.store, j) == 0
  }

  ghost predicate DuplicateOk(s: Service, a: AttemptId)
    requires a in s.duplicates
  {
    && Names(s.store, s.duplicates[a].job, a)
    && s.store.attempts[a].kind == Verification
    && Costs(s.store, s.duplicates[a].job) < Verifiers(s.store, s.duplicates[a].job)
  }

  ghost predicate MapsOk(strict: bool, s: Service) {
    && (forall j | j in s.runs :: RunOk(s, j))
    && (forall a | a in s.duplicates :: DuplicateOk(s, a))
    && (forall n | n in s.active :: Addressed(strict, s, n, s.active[n].job, s.active[n].attempt))
  }

  ghost predicate Shape(strict: bool, s: Service) {
    StoreOk(strict, s.store) && MapsOk(strict, s)
  }

  // ---------------------------------------------------------------- steps that add nothing

  /** Same attempts up to their states, same results, same verification costs. */
  ghost predicate Calm(store: State, store': State) {
    && |store'.jobs| >= |store.jobs|
    && store'.results == store.results
    && |store'.attempts| == |store.attempts|
    && (forall a | 0 <= a < |store.attempts| :: SameAttempt(store.attempts[a], store'.attempts[a]))
    && (forall j: JobId :: Costs(store', j) == Costs(store, j))
  }

  /** Entries may go and exclusions may grow, nothing else changes. */
  ghost predicate Shrinks(s: Service, s': Service) {
    && (forall j | j in s'.runs :: j in s.runs && s'.runs[j].attempts == s.runs[j].attempts)
    && (forall a | a in s'.duplicates :: a in s.duplicates && s'.duplicates[a] == s.duplicates[a])
    && (forall n | n in s'.active :: n in s.active && s'.active[n] == s.active[n])
  }

  lemma CalmCounts(store: State, store': State, j: JobId)
    requires Calm(store, store')
    ensures Standards(store', j) == Standards(store, j) && Verifiers(store', j) == Verifiers(store, j)
  {
    forall a | 0 <= a < |store.attempts|
      ensures StandardFor(j)(store'.attempts[a]) == StandardFor(j)(store.attempts[a])
      ensures VerifierFor(j)(store'.attempts[a]) == VerifierFor(j)(store.attempts[a])
    {
      assert SameAttempt(store.attempts[a], store'.attempts[a]);
    }
    SumSame(store.attempts, store'.attempts, StandardFor(j));
    SumSame(store.attempts, store'.attempts, VerifierFor(j));
  }

  lemma CalmStore(strict: bool, store: State, store': State)
    requires Calm(store, store') && StoreOk(strict, store) && Tables(store') && BilledOnce(store')
    ensures StoreOk(strict, store')
  {
    forall j: JobId ensures Standards(store', j) <= 2 && Costs(store', j) <= Verifiers(store', j) <= 1 {
      CalmCounts(store, store', j);
      assert Standards(store, j) <= 2;
    }
    forall v | 0 <= v < |store'.attempts| && store'.attempts[v].kind == Verification
      ensures VerifierOk(strict, store', v)
    {
      assert SameAttempt(store.attempts[v], store'.attempts[v]);
      assert VerifierOk(strict, store, v);
    }
  }

  lemma CalmMaps(strict: bool, s: Service, s': Service)
    requires Calm(s.store, s'.store) && Shrinks(s, s') && MapsOk(strict, s)
    ensures MapsOk(strict, s')
  {
    forall j | j in s'.runs ensures RunOk(s', j) {
      assert RunOk(s, j);
      CalmCounts(s.store, s'.store, j);
    }
    forall a | a in s'.duplicates ensures DuplicateOk(s', a) {
      assert DuplicateOk(s, a);
      CalmCounts(s.store, s'.store, s.duplicates[a].job);
    }
  }

  predicate CalmStep(step: Step) {
    !Offers(step) && !step.Complete? && !step.PostOverhead?
  }

  lemma CalmStepIsCalm(store: State, step: Step)
    requires Possible(store, step) && CalmStep(step)
    ensures Calm(store, Next(store, step))
  {
    var store' := Next(store, step);
    AttemptsGrow(store, step);
    QuietResults(store, step);
    forall a | 0 <= a < |store.attempts| ensures SameAttempt(store.attempts[a], store'.attempts[a]) {
      StepRow(store, step, a);
    }
    var moved := LedgerMoves(store, step);
    forall j: JobId ensures Costs(store', j) == Costs(store, j) {
      if moved.Some? {
        OtherStepsPostNone(store.ledger, moved.value, Ledger.VerificationOf(j));
      }
    }
  }

  /** A handler that makes one calm store step and lets entries go keeps the shape. */
  lemma CalmKeepsShape(strict: bool, s: Service, step: Step, s': Service)
    requires Possible(s.store, step) && CalmStep(step) && Shape(strict, s)
    requires s'.store == Next(s.store, step) && Shrinks(s, s')
    ensures Shape(strict, s')
  {
    CalmStepIsCalm(s.store, step);
    StepKeepsTables(s.store, step);
    StepKeepsBilling(s.store, step);
    CalmStore(strict, s.store, s'.store);
    CalmMaps(strict, s, s');
  }

  lemma ShrinkKeepsShape(strict: bool, s: Service, s': Service)
    requires Shape(strict, s) && s'.store == s.store && Shrinks(s, s')
    ensures Shape(strict, s')
  {
    CalmMaps(strict, s, s');
  }

  // ---------------------------------------------------------------- a new standard attempt

  /** The store gains exactly this attempt row. */
  ghost predicate Adds(store: State, store': State, row: Attempt) {
    && store'.attempts == store.attempts + [row]
    && store'.results == store.results
    && |store'.jobs| == |store.jobs|
    && store'.ledger == store.ledger
  }

  lemma AddedCounts(store: State, store': State, row: Attempt, j: JobId)
    requires Adds(store, store', row)
    ensures Standards(store', j) == Standards(store, j) + StandardFor(j)(row)
    ensures Verifiers(store', j) == Verifiers(store, j) + VerifierFor(j)(row)
  {
    SumAppend(store.attempts, row, StandardFor(j));
    SumAppend(store.attempts, row, VerifierFor(j));
  }

  /** The run has been tried at most once, and every node that tried it is excluded. */
  ghost predicate Schedulable(strict: bool, s: Service, j: JobId) {
    j in s.runs ==>
      && s.runs[j].attempts < 2
      && (strict ==> forall a | 0 <= a < |s.store.attempts| && s.store.attempts[a].job == j ::
         s.store.attempts[a].node in s.runs[j].excluded)
  }

  lemma AddedStandardStore(strict: bool, s: Service, store': State, row: Attempt)
    requires StoreOk(strict, s.store) && Adds(s.store, store', row) && Tables(store') && BilledOnce(store')
    requires row.kind == Standard && row.job in s.runs && RunOk(s, row.job)
    requires Schedulable(strict, s, row.job) && row.node !in s.runs[row.job].excluded
    ensures StoreOk(strict, store')
  {
    forall j: JobId ensures Standards(store', j) <= 2 && Costs(store', j) <= Verifiers(store', j) <= 1 {
      AddedCounts(s.store, store', row, j);
      assert Standards(s.store, j) <= 2;
    }
    forall v | 0 <= v < |store'.attempts| && store'.attempts[v].kind == Verification
      ensures VerifierOk(strict, store', v)
    {
      OldVerifier(strict, s.store, store', row, v);
    }
  }

  lemma OldVerifier(strict: bool, store: State, store': State, row: Attempt, v: nat)
    requires StoreOk(strict, store) && Adds(store, store', row) && v < |store.attempts|
             && store.attempts[v].kind == Verification
    ensures VerifierOk(strict, store', v)
  {
    assert VerifierOk(strict, store, v);
    forall r | 0 <= r < |store.results| ensures Names(store, store.results[r].job, store.results[r].attempt) {
    }
  }

  lemma AddedStandardMaps(strict: bool, s: Service, s': Service, row: Attempt)
    requires MapsOk(strict, s) && Adds(s.store, s'.store, row) && row.kind == Standard && row.job in s.runs
    requires s'.runs == s.runs[row.job := s.runs[row.job].(attempts := s.runs[row.job].attempts + 1)]
    requires s'.duplicates == s.duplicates
    requires forall n | n in s'.active :: (n in s.active && s'.active[n] == s.active[n])
                                         || (n == row.node && s'.active[n] == ActiveJob(row.job, |s.store.attempts|))
    ensures MapsOk(strict, s')
  {
    forall j | j in s'.runs ensures RunOk(s', j) {
      assert RunOk(s, j);
      AddedCounts(s.store, s'.store, row, j);
    }
    forall a | a in s'.duplicates ensures DuplicateOk(s', a) {
      assert DuplicateOk(s, a);
      AddedCounts(s.store, s'.store, row, s.duplicates[a].job);
    }
    forall n | n in s'.active ensures Addressed(strict, s', n, s'.active[n].job, s'.active[n].attempt) {
      if n in s.active && s'.active[n] == s.active[n] {
        assert Addressed(strict, s, n, s.active[n].job, s.active[n].attempt);
      }
    }
  }

  lemma OfferAdds(store: State, step: Step)
    requires Offers(step) && step.job < |store.jobs|
    ensures var kind := if step.Offer? then Standard else Verification;
            Adds(store, Next(store, step), NewAttempt(step.job, step.node, kind, step.lease, step.deadline, step.now))
  {
  }

  lemma OfferedShape(strict: bool, s: Service, j: JobId, n: NodeId, offer: Step, offered: Service)
    requires Shape(strict, s) && j in s.runs && Schedulable(strict, s, j) && n !in s.runs[j].excluded
    requires offer.Offer? && offer.job == j && offer.node == n
    requires offered == s.(store := Next(s.store, offer),
                           runs := s.runs[j := s.runs[j].(attempts := s.runs[j].attempts + 1)],
                           active := s.active[n := ActiveJob(j, |s.store.attempts|)])
    ensures Shape(strict, offered)
  {
    assert RunOk(s, j);
    var row := NewAttempt(j, n, Standard, offer.lease, offer.deadline, offer.now);
    OfferAdds(s.store, offer);
    StepKeepsTables(s.store, offer);
    StepKeepsBilling(s.store, offer);
    AddedStandardStore(strict, s, offered.store, row);
    AddedStandardMaps(strict, s, offered, row);
  }

  lemma OfferShape(strict: bool, s: Service, j: JobId, n: NodeId, w: World)
    requires Shape(strict, s) && j in s.runs && Schedulable(strict, s, j) && n !in s.runs[j].excluded
    ensures Shape(strict, OfferTo(s, j, n, w).0)
  {
    assert RunOk(s, j);
    var run := s.runs[j];
    var offer := Offer(j, n, LeaseEnd(w), run.deadline, w.storedAt);
    var offered := s.(store := Next(s.store, offer), runs := s.runs[j := run.(attempts := run.attempts + 1)],
                      active := s.active[n := ActiveJob(j, |s.store.attempts|)]);
    OfferedShape(strict, s, j, n, offer, offered);
    if !w.delivered {
      var failed := OfferTo(s, j, n, w).0;
      CalmKeepsShape(strict, offered, FailOne(j, |s.store.attempts|, w.now), failed);
    }
  }

  lemma ScheduleShape(strict: bool, s: Service, j: JobId, w: World)
    requires Shape(strict, s) && Schedulable(strict, s, j)
    ensures Shape(strict, ScheduleInternal(s, j, w).0)
  {
    if j in s.runs {
      var choice := Choose(Filter(s.store.attempts, s.sessions, s.active, s.runs[j].excluded, w.candidates),
        w.preference);
      if choice.Some? {
        OfferShape(strict, s, j, choice.value.node, w);
      }
    }
  }

  // ---------------------------------------------------------------- one job's handling leaves the others alone

  /** Job j keeps its run and gets no new attempt. */
  ghost predicate Untouched(s: Service, s': Service, j: JobId) {
    && (j in s'.runs <==> j in s.runs)
    && (j in s.runs ==> s'.runs[j] == s.runs[j])
    && |s'.store.attempts| >= |s.store.attempts|
    && (forall a | 0 <= a < |s.store.attempts| :: SameAttempt(s.store.attempts[a], s'.store.attempts[a]))
    && (forall a | |s.store.attempts| <= a < |s'.store.attempts| :: s'.store.attempts[a].job != j)
  }

  lemma StepUntouched(s: Service, step: Step, s': Service, j: JobId)
    requires Possible(s.store, step) && s'.store == Next(s.store, step)
    requires Offers(step) ==> step.job != j
    requires (j in s'.runs <==> j in s.runs) && (j in s.runs ==> s'.runs[j] == s.runs[j])
    ensures Untouched(s, s', j)
  {
    AttemptsGrow(s.store, step);
    forall a | 0 <= a < |s.store.attempts| ensures SameAttempt(s.store.attempts[a], s'.store.attempts[a]) {
      StepRow(s.store, step, a);
    }
  }

  lemma UntouchedTwice(s: Service, s': Service, s'': Service, j: JobId)
    requires Untouched(s, s', j) && Untouched(s', s'', j)
    ensures Untouched(s, s'', j)
  {
    forall a | 0 <= a < |s.store.attempts| ensures SameAttempt(s.store.attempts[a], s''.store.attempts[a]) {
      assert SameAttempt(s.store.attempts[a], s'.store.attempts[a]);
      assert SameAttempt(s'.store.attempts[a], s''.store.attempts[a]);
    }
    forall a | |s.store.attempts| <= a < |s''.store.attempts| ensures s''.store.attempts[a].job != j {
      if a < |s'.store.attempts| {
        assert SameAttempt(s'.store.attempts[a], s''.store.attempts[a]);
      }
    }
  }

  lemma OfferSparesOthers(s: Service, i: JobId, n: NodeId, w: World, j: JobId)
    requires i in s.runs && i != j
    ensures Untouched(s, OfferTo(s, i, n, w).0, j)
  {
    if i < |s.store.jobs| {
      var offer := Offer(i, n, LeaseEnd(w), s.runs[i].deadline, w.storedAt);
      var offered := s.(store := Next(s.store, offer));
      StepUntouched(s, offer, offered, j);
      if !w.delivered {
        var failed := OfferTo(s, i, n, w).0;
        StepUntouched(offered, FailOne(i, |s.store.attempts|, w.now), failed, j);
        UntouchedTwice(s, offered, failed, j);
      }
    }
  }

  lemma ScheduleSparesOthers(s: Service, i: JobId, w: World, j: JobId)
    requires i != j
    ensures Untouched(s, ScheduleInternal(s, i, w).0, j)
  {
    if i in s.runs {
      var choice := Choose(Filter(s.store.attempts, s.sessions, s.active, s.runs[i].excluded, w.candidates),
        w.preference);
      if choice.Some? {
        OfferSparesOthers(s, i, choice.value.node, w, j);
      }
    }
  }

  lemma GiveUpSparesOthers(s: Service, i: JobId, a: AttemptId, now: Time, j: JobId)
    requires i != j
    ensures Untouched(s, GiveUp(s, i, a, now), j)
  {
    StepUntouched(s, FailWhole(i, Some(a), now), RemoveRun(Do(s, FailWhole(i, Some(a), now)), i), j);
  }

  lemma ExpiredSparesOthers(s: Service, a: AttemptId, w: World, now: Time, j: JobId)
    requires a < |s.store.attempts| && s.store.attempts[a].job != j
    ensures Untouched(s, HandleExpired(s, a, w, now), j)
  {
    var i, n := s.store.attempts[a].job, s.store.attempts[a].node;
    var cleared := ClearActive(s, n);
    if MayRetry(cleared, i) {
      var prepared := PrepareRetry(cleared, i, n);
      var tried := ScheduleInternal(prepared, i, w).0;
      assert Untouched(s, prepared, j);
      ScheduleSparesOthers(prepared, i, w, j);
      UntouchedTwice(s, prepared, tried, j);
      GiveUpSparesOthers(tried, i, a, now, j);
      UntouchedTwice(s, tried, GiveUp(tried, i, a, now), j);
    } else {
      GiveUpSparesOthers(cleared, i, a, now, j);
    }
  }

  lemma ExpiredStillSparesOthers(s: Service, before: Service, a: AttemptId, w: World, now: Time, j: JobId)
    requires Untouched(s, before, j) && a < |s.store.attempts| && s.store.attempts[a].job != j
    ensures Untouched(s, HandleExpired(before, a, w, now), j)
  {
    assert SameAttempt(s.store.attempts[a], before.store.attempts[a]);
    ExpiredSparesOthers(before, a, w, now, j);
    var after := HandleExpired(before, a, w, now);
    UntouchedTwice(s, before, after, j);
  }

  lemma {:induction false} AllExpiredSpareOthers(s: Service, ids: seq<AttemptId>, worlds: seq<World>, now: Time,
                                                 j: JobId, after: Service)
    requires forall k | 0 <= k < |ids| :: ids[k] < |s.store.attempts| && s.store.attempts[ids[k]].job != j
    requires after == HandleAllExpired(s, ids, worlds, now)
    ensures Untouched(s, after, j)
  {
    if ids != [] {
      var k := |ids| - 1;
      var before := HandleAllExpired(s, ids[..k], worlds, now);
      AllExpiredSpareOthers(s, ids[..k], worlds, now, j, before);
      ExpiredStillSparesOthers(s, before, ids[k], WorldAt(worlds, k), now, j);
    }
  }

  lemma UntouchedSchedulable(strict: bool, s: Service, s': Service, j: JobId)
    requires Untouched(s, s', j) && Schedulable(strict, s, j)
    ensures Schedulable(strict, s', j)
  {
    if strict && j in s'.runs {
      forall a | 0 <= a < |s'.store.attempts| && s'.store.attempts[a].job == j
        ensures s'.store.attempts[a].node in s'.runs[j].excluded
      {
        assert SameAttempt(s.store.attempts[a], s'.store.attempts[a]);
      }
    }
  }

  // ---------------------------------------------------------------- retries

  lemma GiveUpShape(strict: bool, s: Service, j: JobId, a: AttemptId, now: Time)
    requires Shape(strict, s)
    ensures Shape(strict, GiveUp(s, j, a, now))
  {
    CalmKeepsShape(strict, s, FailWhole(j, Some(a), now), RemoveRun(Do(s, FailWhole(j, Some(a), now)), j));
  }

  /** A run that may be retried has had no attempt but the one that failed. */
  lemma OnlyAttempt(strict: bool, s: Service, j: JobId, a: AttemptId, b: AttemptId)
    requires Shape(strict, s) && MayRetry(s, j) && Names(s.store, j, a) && Names(s.store, j, b)
    ensures a == b
  {
    assert RunOk(s, j);
    if s.store.attempts[a].kind == Verification {
      SumAtLeast(s.store.attempts, VerifierFor(j), a);
    } else if s.store.attempts[b].kind == Verification {
      SumAtLeast(s.store.attempts, VerifierFor(j), b);
    } else if a < b {
      SumAtLeastTwo(s.store.attempts, StandardFor(j), a, b);
    } else if b < a {
      SumAtLeastTwo(s.store.attempts, StandardFor(j), b, a);
    }
  }

  lemma RetrySchedulable(strict: bool, s: Service, n: NodeId, j: JobId, a: AttemptId)
    requires Shape(strict, s) && MayRetry(s, j) && Addressed(strict, s, n, j, a)
    ensures Schedulable(strict, PrepareRetry(s, j, n), j)
  {
    forall b | 0 <= b < |s.store.attempts| && s.store.attempts[b].job == j ensures a == b {
      OnlyAttempt(strict, s, j, a, b);
    }
  }

  lemma ClearedShape(strict: bool, s: Service, n: NodeId)
    requires Shape(strict, s)
    ensures Shape(strict, ClearActive(s, n))
  {
    ShrinkKeepsShape(strict, s, ClearActive(s, n));
  }

  lemma PreparedShape(strict: bool, s: Service, j: JobId, n: NodeId)
    requires Shape(strict, s) && MayRetry(s, j)
    ensures Shape(strict, PrepareRetry(s, j, n))
  {
    ShrinkKeepsShape(strict, s, PrepareRetry(s, j, n));
  }

  lemma TriedShape(strict: bool, s: Service, j: JobId, w: World, a: AttemptId, now: Time)
    requires Shape(strict, s) && Schedulable(strict, s, j)
    ensures Shape(strict, ScheduleInternal(s, j, w).0) && Shape(strict, GiveUp(ScheduleInternal(s, j, w).0, j, a, now))
  {
    ScheduleShape(strict, s, j, w);
    var tried := ScheduleInternal(s, j, w).0;
    GiveUpShape(strict, tried, j, a, now);
  }

  lemma ExpiredShape(strict: bool, s: Service, a: AttemptId, w: World, now: Time)
    requires Shape(strict, s)
    ensures Shape(strict, HandleExpired(s, a, w, now))
  {
    if a < |s.store.attempts| {
      KnownExpiredShape(strict, s, a, w, now);
    }
  }

  lemma KnownExpiredShape(strict: bool, s: Service, a: AttemptId, w: World, now: Time)
    requires Shape(strict, s) && a < |s.store.attempts|
    ensures Shape(strict, HandleExpired(s, a, w, now))
  {
    var j, n := s.store.attempts[a].job, s.store.attempts[a].node;
    var cleared := ClearActive(s, n);
    ClearedShape(strict, s, n);
    if MayRetry(cleared, j) {
      PreparedShape(strict, cleared, j, n);
      RetrySchedulable(strict, cleared, n, j, a);
      TriedShape(strict, PrepareRetry(cleared, j, n), j, w, a, now);
    } else {
      GiveUpShape(strict, cleared, j, a, now);
    }
  }

  lemma {:induction false} AllExpiredShape(strict: bool, s: Service, ids: seq<AttemptId>, worlds: seq<World>, now: Time)
    requires Shape(strict, s)
    ensures Shape(strict, HandleAllExpired(s, ids, worlds, now))
  {
    if ids != [] {
      var k := |ids| - 1;
      AllExpiredShape(strict, s, ids[..k], worlds, now);
      var before := HandleAllExpired(s, ids[..k], worlds, now);
      ExpiredShape(strict, before, ids[k], WorldAt(worlds, k), now);
    }
  }

  ghost predicate NoneOffered(store: State, j: JobId) {
    forall a | 0 <= a < |store.attempts| && store.attempts[a].job == j :: store.attempts[a].status != Offered
  }

  /** Expiring other leases first does not spoil a job that may be scheduled. */
  lemma AttemptShape(strict: bool, s: Service, j: JobId, now: Time, worlds: seq<World>, w: World)
    requires Shape(strict, s) && Schedulable(strict, s, j) && NoneOffered(s.store, j)
    ensures Shape(strict, ScheduleAttempt(s, j, now, worlds, w).0)
  {
    var expired := Do(s, Expire(now));
    var ids := ExpiredIds(s.store.attempts, now);
    var handled := HandleAllExpired(expired, ids, worlds, now);
    CalmKeepsShape(strict, s, Expire(now), expired);
    AllExpiredShape(strict, expired, ids, worlds, now);
    StepUntouched(s, Expire(now), expired, j);
    forall k | 0 <= k < |ids| ensures ids[k] < |expired.store.attempts| && expired.store.attempts[ids[k]].job != j {
      assert LeaseOver(s.store.attempts[ids[k]], now);
    }
    AllExpiredSpareOthers(expired, ids, worlds, now, j, handled);
    UntouchedTwice(s, expired, handled, j);
    UntouchedSchedulable(strict, s, handled, j);
    ScheduleShape(strict, handled, j, w);
  }

  lemma FailedSchedulable(strict: bool, s: Service, n: NodeId, j: JobId, a: AttemptId, now: Time, failed: Service)
    requires Shape(strict, s) && MayRetry(s, j) && Addressed(strict, s, n, j, a)
    requires failed == Do(PrepareRetry(s, j, n), FailOne(j, a, now))
    ensures Schedulable(strict, failed, j) && NoneOffered(failed.store, j)
  {
    var prepared := PrepareRetry(s, j, n);
    RetrySchedulable(strict, s, n, j, a);
    StepUntouched(prepared, FailOne(j, a, now), failed, j);
    UntouchedSchedulable(strict, prepared, failed, j);
    forall b | 0 <= b < |failed.store.attempts| && failed.store.attempts[b].job == j
      ensures failed.store.attempts[b].status != Offered
    {
      assert SameAttempt(s.store.attempts[b], failed.store.attempts[b]);
      OnlyAttempt(strict, s, j, a, b);
    }
  }

  lemma RetriedShape(strict: bool, s: Service, n: NodeId, j: JobId, a: AttemptId, now: Time, worlds: seq<World>,
                     w: World)
    requires Shape(strict, s) && MayRetry(s, j) && Addressed(strict, s, n, j, a)
    ensures Shape(strict, Retried(PrepareRetry(s, j, n), j, a, now, worlds, w))
  {
    var prepared := PrepareRetry(s, j, n);
    var failed := Do(prepared, FailOne(j, a, now));
    PreparedShape(strict, s, j, n);
    CalmKeepsShape(strict, prepared, FailOne(j, a, now), failed);
    FailedSchedulable(strict, s, n, j, a, now, failed);
    AttemptShape(strict, failed, j, now, worlds, w);
    var tried := ScheduleAttempt(failed, j, now, worlds, w).0;
    GiveUpShape(strict, tried, j, a, now);
  }

  lemma FailureShape(strict: bool, s: Service, n: NodeId, j: JobId, a: AttemptId, transient: bool, now: Time,
                     worlds: seq<World>, w: World)
    requires Shape(strict, s) && Addressed(strict, s, n, j, a)
    ensures Shape(strict, HandleFailure(s, n, j, a, transient, now, worlds, w))
  {
    var cleared := ClearActive(s, n);
    ClearedShape(strict, s, n);
    if transient && MayRetry(cleared, j) {
      RetriedShape(strict, cleared, n, j, a, now, worlds, w);
    } else {
      GiveUpShape(strict, cleared, j, a, now);
    }
  }

  // ---------------------------------------------------------------- completions and verification

  /** A completion is accepted only while the job has no verification attempt. */
  lemma AcceptedUnverified(strict: bool, store: State, c: Completion, at: Time, hold: int, prices: Option<Prices>)
    requires StoreOk(strict, store) && CompleteJob(store, c, at, hold, prices).Ok?
    ensures forall v | 0 <= v < |store.attempts| && store.attempts[v].job == c.job :: store.attempts[v].kind == Standard
    ensures forall r | 0 <= r < |store.results| :: store.results[r].job != c.job
  {
    CompletionBills(store, c, at, hold, prices, c.job);
    BilledIffResult(store, c.job);
    forall v | 0 <= v < |store.attempts| && store.attempts[v].kind == Verification
      ensures store.attempts[v].job != c.job
    {
      assert JobHasResult(store, store.attempts[v].job);
    }
  }

  lemma CompletedCosts(store: State, c: Completion, at: Time, hold: int, prices: Option<Prices>, j: JobId)
    requires CompleteJob(store, c, at, hold, prices).Ok?
    ensures Costs(CompleteJob(store, c, at, hold, prices).value, j) == Costs(store, j)
  {
    var store' := CompleteJob(store, c, at, hold, prices).value;
    SumAppend(store.ledger.txns, store'.ledger.txns[|store.ledger.txns|], Ledger.VerificationOf(j));
  }

  /** What an accepted completion changes, as far as attempts and results go. */
  ghost predicate Completes(store: State, store': State, c: Completion) {
    && |store'.jobs| == |store.jobs|
    && c.attempt < |store.attempts|
    && store'.results == store.results + [ResultRow(c.job, c.attempt, c.usage)]
    && |store'.attempts| == |store.attempts|
    && (forall a | 0 <= a < |store.attempts| :: SameAttempt(store.attempts[a], store'.attempts[a]))
    && (forall j: JobId :: Costs(store', j) == Costs(store, j))
  }

  lemma CompletionCompletes(store: State, c: Completion, at: Time, hold: int, prices: Option<Prices>)
    requires CompleteJob(store, c, at, hold, prices).Ok?
    ensures Completes(store, CompleteJob(store, c, at, hold, prices).value, c)
  {
    var store' := CompleteJob(store, c, at, hold, prices).value;
    forall a | 0 <= a < |store.attempts| ensures SameAttempt(store.attempts[a], store'.attempts[a]) {
      CompletedRow(store, c, at, hold, prices, a);
    }
    forall j: JobId ensures Costs(store', j) == Costs(store, j) {
      CompletedCosts(store, c, at, hold, prices, j);
    }
  }

  lemma CompletedCounts(store: State, store': State, c: Completion, j: JobId)
    requires Completes(store, store', c)
    ensures Standards(store', j) == Standards(store, j) && Verifiers(store', j) == Verifiers(store, j)
  {
    CalmCounts(store, store'.(results := store.results), j);
  }

  lemma CompletedStore(strict: bool, store: State, store': State, c: Completion)
    requires StoreOk(strict, store) && Completes(store, store', c) && Tables(store') && BilledOnce(store')
    requires forall v | 0 <= v < |store.attempts| && store.attempts[v].job == c.job ::
             store.attempts[v].kind == Standard
    ensures StoreOk(strict, store')
  {
    forall j: JobId ensures Standards(store', j) <= 2 && Costs(store', j) <= Verifiers(store', j) <= 1 {
      CompletedCounts(store, store', c, j);
      assert Standards(store, j) <= 2;
    }
    forall v | 0 <= v < |store'.attempts| && store'.attempts[v].kind == Verification
      ensures VerifierOk(strict, store', v)
    {
      assert SameAttempt(store.attempts[v], store'.attempts[v]);
      assert VerifierOk(strict, store, v);
      StillChecked(strict, store, store', c, v);
    }
  }

  lemma StillChecked(strict: bool, store: State, store': State, c: Completion, v: nat)
    requires Completes(store, store', c) && v < |store.attempts| && store.attempts[v].job != c.job
    requires VerifierOk(strict, store, v)
    ensures VerifierOk(strict, store', v)
  {
    assert SameAttempt(store.attempts[v], store'.attempts[v]);
    var r :| 0 <= r < |store.results| && store.results[r].job == store.attempts[v].job;
    assert store'.results[r] == store.results[r];
  }

  lemma CompletedMaps(strict: bool, s: Service, s': Service, c: Completion)
    requires MapsOk(strict, s) && Completes(s.store, s'.store, c) && Shrinks(s, s')
    ensures MapsOk(strict, s')
  {
    forall j | j in s'.runs ensures RunOk(s', j) {
      assert RunOk(s, j);
      CompletedCounts(s.store, s'.store, c, j);
    }
    forall a | a in s'.duplicates ensures DuplicateOk(s', a) {
      assert DuplicateOk(s, a);
      CompletedCounts(s.store, s'.store, c, s.duplicates[a].job);
    }
  }

  lemma CompletedShape(strict: bool, s: Service, c: Completion, at: Time, hold: int, prices: Option<Prices>,
                       s': Service)
    requires Shape(strict, s) && CompleteJob(s.store, c, at, hold, prices).Ok? && Shrinks(s, s')
    requires s'.store == CompleteJob(s.store, c, at, hold, prices).value
    ensures Shape(strict, s')
  {
    CompletionCompletes(s.store, c, at, hold, prices);
    AcceptedUnverified(strict, s.store, c, at, hold, prices);
    StepKeepsTables(s.store, Complete(c, at, hold, prices));
    StepKeepsBilling(s.store, Complete(c, at, hold, prices));
    CompletedStore(strict, s.store, s'.store, c);
    CompletedMaps(strict, s, s', c);
  }

  /** The job has an accepted result, strictly produced by this node alone, and nobody checks it yet. */
  ghost predicate Checkable(strict: bool, store: State, j: JobId, producer: NodeId) {
    && j < |store.jobs| && JobHasResult(store, j) && Verifiers(store, j) == 0
    && (strict ==> forall r | 0 <= r < |store.results| && store.results[r].job == j ::
          store.results[r].attempt < |store.attempts| && store.attempts[store.results[r].attempt].node == producer)
  }

  lemma CompletedCheckable(strict: bool, store: State, c: Completion, at: Time, hold: int, prices: Option<Prices>,
                           producer: NodeId)
    requires StoreOk(strict, store) && CompleteJob(store, c, at, hold, prices).Ok?
             && (strict ==> store.attempts[c.attempt].node == producer)
    ensures Checkable(strict, CompleteJob(store, c, at, hold, prices).value, c.job, producer)
  {
    var store' := CompleteJob(store, c, at, hold, prices).value;
    CompletionCompletes(store, c, at, hold, prices);
    AcceptedUnverified(strict, store, c, at, hold, prices);
    CompletedCounts(store, store', c, c.job);
    SumZero(store.attempts, VerifierFor(c.job));
    assert SameAttempt(store.attempts[c.attempt], store'.attempts[c.attempt]);
    assert store'.results[|store.results|].job == c.job;
    assert store.attempts[c.attempt].job < |store.jobs|;
  }

  lemma AddedVerifierStore(strict: bool, store: State, store': State, row: Attempt, producer: NodeId)
    requires StoreOk(strict, store) && Adds(store, store', row) && Tables(store') && BilledOnce(store')
    requires row.kind == Verification && Checkable(strict, store, row.job, producer) && row.node != producer
    ensures StoreOk(strict, store')
  {
    forall j: JobId ensures Standards(store', j) <= 2 && Costs(store', j) <= Verifiers(store', j) <= 1 {
      AddedCounts(store, store', row, j);
      assert Standards(store, j) <= 2;
    }
    forall v | 0 <= v < |store'.attempts| && store'.attempts[v].kind == Verification
      ensures VerifierOk(strict, store', v)
    {
      if v < |store.attempts| {
        OldVerifier(strict, store, store', row, v);
      }
    }
  }

  lemma AddedVerifierMaps(strict: bool, s: Service, s': Service, row: Attempt, dup: Duplicate)
    requires MapsOk(strict, s) && Adds(s.store, s'.store, row) && row.kind == Verification && row.job !in s.runs
    requires Verifiers(s.store, row.job) == 0 && Costs(s.store, row.job) <= 0
    requires s'.runs == s.runs
    requires dup.job == row.job && s'.duplicates == s.duplicates[|s.store.attempts| := dup]
    requires s'.active == s.active[row.node := ActiveJob(row.job, |s.store.attempts|)]
    ensures MapsOk(strict, s')
  {
    forall j | j in s'.runs ensures RunOk(s', j) {
      assert RunOk(s, j);
      AddedCounts(s.store, s'.store, row, j);
    }
    forall a | a in s'.duplicates ensures DuplicateOk(s', a) {
      AddedCounts(s.store, s'.store, row, s'.duplicates[a].job);
      if a != |s.store.attempts| {
        assert DuplicateOk(s, a);
      }
    }
    forall n | n in s'.active ensures Addressed(strict, s', n, s'.active[n].job, s'.active[n].attempt) {
      if n != row.node {
        assert Addressed(strict, s, n, s.active[n].job, s.active[n].attempt);
      }
    }
  }

  lemma VerifierShape(strict: bool, s: Service, producer: NodeId, j: JobId, n: NodeId, w: World, dup: Duplicate,
                      offered: Service)
    requires Shape(strict, s) && Checkable(strict, s.store, j, producer) && j !in s.runs && n != producer
             && dup.job == j
    requires var offer := OfferVerification(j, n, LeaseEnd(w), VerificationDeadline(w), w.storedAt);
             offered == s.(store := Next(s.store, offer),
                           active := s.active[n := ActiveJob(j, |s.store.attempts|)],
                           duplicates := s.duplicates[|s.store.attempts| := dup])
    ensures Shape(strict, offered)
  {
    var offer := OfferVerification(j, n, LeaseEnd(w), VerificationDeadline(w), w.storedAt);
    var row := NewAttempt(j, n, Verification, LeaseEnd(w), VerificationDeadline(w), w.storedAt);
    OfferAdds(s.store, offer);
    StepKeepsTables(s.store, offer);
    StepKeepsBilling(s.store, offer);
    assert Costs(s.store, j) <= Verifiers(s.store, j);
    AddedVerifierStore(strict, s.store, offered.store, row, producer);
    AddedVerifierMaps(strict, s, offered, row, dup);
  }

  lemma DuplicateShape(strict: bool, s: Service, producer: NodeId, r: Report, request: Metering.Request, w: World)
    requires Shape(strict, s) && Checkable(strict, s.store, r.job, producer) && r.job !in s.runs
    ensures Shape(strict, StartDuplicate(s, producer, r, request, w))
  {
    var choice := Choose(Filter(s.store.attempts, s.sessions, s.active, {producer}, w.candidates), w.preference);
    if choice.Some? {
      var n, a := choice.value.node, |s.store.attempts|;
      var dup := Duplicate(r.job, r.attempt, producer, request, ContentOf(r));
      var offer := OfferVerification(r.job, n, LeaseEnd(w), VerificationDeadline(w), w.storedAt);
      var offered := s.(store := Next(s.store, offer),
                        active := s.active[n := ActiveJob(r.job, a)],
                        duplicates := s.duplicates[a := dup]);
      VerifierShape(strict, s, producer, r.job, n, w, dup, offered);
      if !w.delivered {
        CalmKeepsShape(strict, offered, VerifyFailed(r.job, a, w.now), StartDuplicate(s, producer, r, request, w));
      }
    }
  }

  lemma PostedStore(strict: bool, store: State, store': State, j: JobId)
    requires StoreOk(strict, store) && Tables(store') && BilledOnce(store') && store' == store.(ledger := store'.ledger)
    requires Costs(store, j) < Verifiers(store, j)
    requires forall i: JobId :: Costs(store', i) <= Costs(store, i) + (if i == j then 1 else 0)
    ensures StoreOk(strict, store')
  {
    forall i: JobId ensures Standards(store', i) <= 2 && Costs(store', i) <= Verifiers(store', i) <= 1 {
      assert Standards(store, i) <= 2;
    }
    forall v | 0 <= v < |store'.attempts| && store'.attempts[v].kind == Verification
      ensures VerifierOk(strict, store', v)
    {
      assert VerifierOk(strict, store, v);
    }
  }

  /** Entries stay in order when one verification cost is posted for a job whose check is no longer pending. */
  lemma PostedShape(strict: bool, s: Service, s': Service, j: JobId)
    requires Shape(strict, s) && Tables(s'.store) && BilledOnce(s'.store)
    requires s'.store == s.store.(ledger := s'.store.ledger)
    requires s'.runs == s.runs && s'.duplicates == s.duplicates && s'.active == s.active
    requires Costs(s.store, j) < Verifiers(s.store, j)
    requires forall a | a in s.duplicates :: s.duplicates[a].job != j
    requires forall i: JobId :: Costs(s'.store, i) <= Costs(s.store, i) + (if i == j then 1 else 0)
    ensures Shape(strict, s')
  {
    PostedStore(strict, s.store, s'.store, j);
    forall i | i in s'.runs ensures RunOk(s', i) {
      assert RunOk(s, i);
    }
    forall a | a in s'.duplicates ensures DuplicateOk(s', a) {
      assert DuplicateOk(s, a);
    }
  }

  lemma OverheadCosts(store: State, c: Completion, at: Time, hold: int, prices: Option<Prices>, i: JobId)
    ensures var store' := Next(store, PostOverhead(c, at, hold, prices));
            store' == store.(ledger := store'.ledger)
              && Costs(store', i) <= Costs(store, i) + (if i == c.job then 1 else 0)
  {
    var store' := Next(store, PostOverhead(c, at, hold, prices));
    if store'.ledger != store.ledger {
      SumAppend(store.ledger.txns, store'.ledger.txns[|store.ledger.txns|], Ledger.VerificationOf(i));
    }
  }

  /** Only one verification attempt of a job can be waiting for its verdict. */
  lemma OnlyDuplicate(strict: bool, s: Service, a: AttemptId, b: AttemptId)
    requires Shape(strict, s) && a in s.duplicates && b in s.duplicates && s.duplicates[a].job == s.duplicates[b].job
    ensures a == b
  {
    var j := s.duplicates[a].job;
    assert DuplicateOk(s, a) && DuplicateOk(s, b) && Verifiers(s.store, j) <= 1;
    if a < b {
      SumAtLeastTwo(s.store.attempts, VerifierFor(j), a, b);
    } else if b < a {
      SumAtLeastTwo(s.store.attempts, VerifierFor(j), b, a);
    }
  }

  /** Once its duplicate entry is gone the job still has its cost to come and no other entry. */
  lemma VerdictPending(strict: bool, s: Service, a: AttemptId, step: Step, marked: Service)
    requires Shape(strict, s) && a in s.duplicates && Names(s.store, s.duplicates[a].job, a)
    requires Possible(s.store, step) && CalmStep(step) && marked.store == Next(s.store, step)
    requires marked.duplicates == s.duplicates - {a}
    ensures Costs(marked.store, s.duplicates[a].job) < Verifiers(marked.store, s.duplicates[a].job)
    ensures forall b | b in marked.duplicates :: marked.duplicates[b].job != s.duplicates[a].job
  {
    assert DuplicateOk(s, a);
    CalmStepIsCalm(s.store, step);
    CalmCounts(s.store, marked.store, s.duplicates[a].job);
    forall b | b in marked.duplicates ensures marked.duplicates[b].job != s.duplicates[a].job {
      if s.duplicates[b].job == s.duplicates[a].job {
        OnlyDuplicate(strict, s, a, b);
      }
    }
  }

  lemma OverheadShape(strict: bool, s: Service, c: Completion, at: Time, hold: int, prices: Option<Prices>)
    requires Shape(strict, s) && Costs(s.store, c.job) < Verifiers(s.store, c.job)
    requires forall b | b in s.duplicates :: s.duplicates[b].job != c.job
    ensures Shape(strict, Do(s, PostOverhead(c, at, hold, prices)))
  {
    var step := PostOverhead(c, at, hold, prices);
    var s' := Do(s, step);
    StepKeepsTables(s.store, step);
    StepKeepsBilling(s.store, step);
    OverheadCosts(s.store, c, at, hold, prices, c.job);
    forall i: JobId ensures Costs(s'.store, i) <= Costs(s.store, i) + (if i == c.job then 1 else 0) {
      OverheadCosts(s.store, c, at, hold, prices, i);
    }
    PostedShape(strict, s, s', c.job);
  }

  lemma MarkedShape(strict: bool, s: Service, n: NodeId, r: Report, verified: bool, now: Time, marked: Service)
    requires Shape(strict, s) && r.attempt in s.duplicates && Names(s.store, r.job, r.attempt)
    requires marked == Do(ClearActive(RemoveDuplicate(s, r.attempt), n),
             Verdict(s.duplicates[r.attempt], r, verified, now))
    ensures Shape(strict, marked)
    ensures Costs(marked.store, r.job) < Verifiers(marked.store, r.job)
    ensures forall b | b in marked.duplicates :: marked.duplicates[b].job != r.job
  {
    assert DuplicateOk(s, r.attempt);
    var verdict := Verdict(s.duplicates[r.attempt], r, verified, now);
    CalmKeepsShape(strict, s, verdict, marked);
    VerdictPending(strict, s, r.attempt, verdict, marked);
  }

  lemma VerdictShape(strict: bool, s: Service, n: NodeId, r: Report, verified: bool, now: Time, hold: int,
                     prices: Option<Prices>)
    requires Shape(strict, s) && r.attempt in s.duplicates && Names(s.store, r.job, r.attempt)
    ensures Shape(strict, HandleDuplicateCompletion(s, n, r, verified, now, hold, prices))
  {
    var marked := Do(ClearActive(RemoveDuplicate(s, r.attempt), n), Verdict(s.duplicates[r.attempt], r, verified, now));
    MarkedShape(strict, s, n, r, verified, now, marked);
    OverheadShape(strict, marked, CompletionOf(r), now, hold, prices);
  }

  // ---------------------------------------------------------------- every event

  lemma CompletionShape(strict: bool, s: Service, n: NodeId, r: Report, f: Findings, now: Time, hold: int,
                        prices: Option<Prices>, w: World)
    requires Shape(strict, s) && Addressed(strict, s, n, r.job, r.attempt)
    ensures Shape(strict, HandleCompletion(s, n, r, f, now, hold, prices, w))
  {
    if r.attempt in s.duplicates {
      VerdictShape(strict, s, n, r, f.verified, now, hold, prices);
    } else if f.verified && Metering.Plausible(UsedRequest(s, r.job), r.payload) {
      FinishedShape(strict, s, n, r, f.sampled, now, hold, prices, w);
    } else {
      CalmKeepsShape(strict, s, FailWhole(r.job, Some(r.attempt), now),
        HandleCompletion(s, n, r, f, now, hold, prices, w));
    }
  }

  lemma FinishedShape(strict: bool, s: Service, n: NodeId, r: Report, sampled: bool, now: Time, hold: int,
                      prices: Option<Prices>, w: World)
    requires Shape(strict, s) && Addressed(strict, s, n, r.job, r.attempt)
    ensures Shape(strict, Finished(s, n, r, sampled, now, hold, prices, w))
  {
    if CompleteJob(s.store, CompletionOf(r), now, hold, prices).Err? {
      ClearedShape(strict, s, n);
    } else {
      AcceptedShape(strict, s, n, r, UsedRequest(s, r.job), now, hold, prices, w);
    }
  }

  lemma AcceptedShape(strict: bool, s: Service, n: NodeId, r: Report, request: Metering.Request,
                      now: Time, hold: int, prices: Option<Prices>, w: World)
    requires Shape(strict, s) && Addressed(strict, s, n, r.job, r.attempt)
             && CompleteJob(s.store, CompletionOf(r), now, hold, prices).Ok?
    ensures var completed := ClearActive(Do(s, Complete(CompletionOf(r), now, hold, prices)), n);
            Shape(strict, RemoveRun(completed, r.job))
              && Shape(strict, RemoveRun(StartDuplicate(completed, n, r, request, w), r.job))
  {
    var c := CompletionOf(r);
    var completed := ClearActive(Do(s, Complete(c, now, hold, prices)), n);
    var over := RemoveRun(completed, r.job);
    CompletedShape(strict, s, c, now, hold, prices, over);
    CompletedCheckable(strict, s.store, c, now, hold, prices, n);
    DuplicateShape(strict, over, n, r, request, w);
    DuplicateIgnoresRuns(completed, n, r, request, w);
  }

  /** Starting the duplicate before or after dropping the run comes to the same. */
  lemma DuplicateIgnoresRuns(s: Service, producer: NodeId, r: Report, request: Metering.Request, w: World)
    ensures RemoveRun(StartDuplicate(s, producer, r, request, w), r.job)
            == StartDuplicate(RemoveRun(s, r.job), producer, r, request, w)
  {
  }

  lemma RefusalShape(strict: bool, s: Service, n: NodeId, j: JobId, a: AttemptId, retryable: bool, now: Time,
                     worlds: seq<World>, w: World)
    requires Shape(strict, s) && Addressed(strict, s, n, j, a)
    ensures Shape(strict, HandleRefusal(s, n, j, a, retryable, now, worlds, w))
  {
    if a in s.duplicates {
      CalmKeepsShape(strict, s, VerifyFailed(j, a, now), HandleRefusal(s, n, j, a, retryable, now, worlds, w));
    } else {
      FailureShape(strict, s, n, j, a, retryable, now, worlds, w);
    }
  }

  lemma DetachShape(strict: bool, s: Service, n: NodeId, session: SessionId, now: Time, worlds: seq<World>, w: World)
    requires Shape(strict, s)
    ensures Shape(strict, HandleDetach(s, n, session, now, worlds, w))
  {
    if n in s.sessions && s.sessions[n] == session {
      var gone := s.(sessions := s.sessions - {n}, active := s.active - {n});
      ShrinkKeepsShape(strict, s, gone);
      if n in s.active {
        FailureShape(strict, gone, n, s.active[n].job, s.active[n].attempt, true, now, worlds, w);
      }
    }
  }

  lemma RegisteredShape(strict: bool, s: Service, org: OrgId, request: Metering.Request, deadline: Time,
                        registered: Service)
    requires Shape(strict, s)
    requires registered == Registered(s, org, request, deadline)
    ensures Shape(strict, registered) && Schedulable(strict, registered, |s.store.jobs|)
            && NoneOffered(registered.store, |s.store.jobs|)
  {
    var j := |s.store.jobs|;
    var created := s.(store := CreateJob(s.store, org, request));
    CalmKeepsShape(strict, s, NewJob(org, request), created);
    forall a | 0 <= a < |s.store.attempts| ensures s.store.attempts[a].job < j {
    }
    SumZero(s.store.attempts, StandardFor(j));
    SumZero(s.store.attempts, VerifierFor(j));
    forall i | i in registered.runs ensures RunOk(registered, i) {
      if i != j {
        assert RunOk(created, i);
      }
    }
    forall a | a in registered.duplicates ensures DuplicateOk(registered, a) {
      assert DuplicateOk(created, a);
    }
    forall n | n in registered.active ensures Addressed(strict, registered, n, registered.active[n].job,
           registered.active[n].attempt) {
      assert Addressed(strict, created, n, created.active[n].job, created.active[n].attempt);
    }
  }

  lemma ChatShape(strict: bool, s: Service, org: OrgId, request: Metering.Request, deadline: Time, now: Time,
                  worlds: seq<World>, w: World)
    requires Shape(strict, s)
    ensures Shape(strict, HandleChat(s, org, request, deadline, now, worlds, w))
  {
    var j := |s.store.jobs|;
    var registered := Registered(s, org, request, deadline);
    RegisteredShape(strict, s, org, request, deadline, registered);
    RegisteredRuns(strict, registered, j, now, worlds, w);
  }

  lemma RegisteredRuns(strict: bool, s: Service, j: JobId, now: Time, worlds: seq<World>, w: World)
    requires Shape(strict, s) && Schedulable(strict, s, j) && NoneOffered(s.store, j)
    ensures var tried := ScheduleAttempt(s, j, now, worlds, w).0;
            Shape(strict, tried) && Shape(strict, RemoveRun(tried, j))
              && Shape(strict, Do(RemoveRun(tried, j), FailWhole(j, None, now)))
  {
    AttemptShape(strict, s, j, now, worlds, w);
    var tried := ScheduleAttempt(s, j, now, worlds, w).0;
    AbandonedShape(strict, tried, j, now);
  }

  lemma AbandonedShape(strict: bool, s: Service, j: JobId, now: Time)
    requires Shape(strict, s)
    ensures Shape(strict, RemoveRun(s, j)) && Shape(strict, Do(RemoveRun(s, j), FailWhole(j, None, now)))
  {
    ShrinkKeepsShape(strict, s, RemoveRun(s, j));
    CalmKeepsShape(strict, s, FailWhole(j, None, now), Do(RemoveRun(s, j), FailWhole(j, None, now)));
  }

  lemma EventShape(strict: bool, s: Service, e: Event)
    requires CanHappen(s, e) && WellAddressed(strict, s, e) && Shape(strict, s)
    ensures Shape(strict, Handle(s, e))
  {
    if e.Detach? {
      DetachShape(strict, s, e.node, e.session, e.now, e.worlds, e.world);
    } else if e.Attach? {
      ShrinkKeepsShape(strict, s, Handle(s, e));
    } else if e.Chat? {
      ChatShape(strict, s, e.org, e.request, e.deadline, e.now, e.worlds, e.world);
    } else if e.WaitTimeout? {
      AbandonedShape(strict, s, e.job, e.now);
    } else if e.SaysRejected? || e.SaysFailed? {
      RefusalShape(strict, s, e.node, e.job, e.attempt, e.retryable, e.now, e.worlds, e.world);
    } else if e.SaysCompleted? {
      CompletionShape(strict, s, e.node, e.report, e.findings, e.now, e.creditHold, e.prices, e.world);
    } else {
      CalmKeepsShape(strict, s, PlainStep(e), Handle(s, e));
    }
  }

  lemma MoveShape(strict: bool, s: Service, e: Event, s': Service)
    requires Moves(s, e, s') && WellAddressed(strict, s, e) && Shape(strict, s)
    ensures Shape(strict, s')
  {
    EventShape(strict, s, e);
  }

  lemma NothingYet(strict: bool, s: Service)
    requires |s.store.jobs| == |s.store.attempts| == |s.store.results| == |s.store.ledger.txns| == 0
    requires s.active == map[] && s.runs == map[] && s.duplicates == map[]
    ensures Shape(strict, s)
  {
    NoRowsInv(s.store);
  }

  ghost predicate Orderly(strict: bool, states: seq<Service>, events: seq<Event>)
    requires |states| == |events| + 1
  {
    forall k | 0 <= k < |events| :: WellAddressed(strict, states[k], events[k])
  }

  /** The shape holds in every state of every history of well-addressed messages. */
  lemma {:induction false} ShapeInEveryHistory(strict: bool, states: seq<Service>, events: seq<Event>, k: nat)
    requires IsHistory(states, events) && Orderly(strict, states, events) && k < |states|
    ensures Shape(strict, states[k])
  {
    if k == 0 {
      NothingYet(strict, states[0]);
    } else {
      ShapeInEveryHistory(strict, states, events, k - 1);
      assert EventAt(states, events, k - 1);
      MoveShape(strict, states[k - 1], events[k - 1], states[k]);
    }
  }

  // ---------------------------------------------------------------- what it means

  /**
   As long as messages name attempts of their own jobs, whoever sends them: a job never has a third
   standard attempt, never a second verification attempt, and never more verification costs than
   verification attempts.
   */
  lemma AttemptsAreBounded(states: seq<Service>, events: seq<Event>, k: nat, j: JobId)
    requires IsHistory(states, events) && Orderly(false, states, events) && k < |states|
    ensures Standards(states[k].store, j) <= 2
    ensures Costs(states[k].store, j) <= Verifiers(states[k].store, j) <= 1
  {
    ShapeInEveryHistory(false, states, events, k);
  }

  /** When they also come from the attempt's node, a job's two attempts are on different nodes. */
  lemma RetriesGoElsewhere(states: seq<Service>, events: seq<Event>, k: nat, a: AttemptId, b: AttemptId)
    requires IsHistory(states, events) && Orderly(true, states, events) && k < |states|
    requires a < |states[k].store.attempts| && b < |states[k].store.attempts| && a != b
    requires states[k].store.attempts[a].job == states[k].store.attempts[b].job
    requires states[k].store.attempts[a].kind == Standard && states[k].store.attempts[b].kind == Standard
    ensures states[k].store.attempts[a].node != states[k].store.attempts[b].node
  {
    ShapeInEveryHistory(true, states, events, k);
  }

  /** A check has a result to check, and then whoever checks it did not produce it. */
  lemma ResultsAreCheckedElsewhere(states: seq<Service>, events: seq<Event>, k: nat, v: AttemptId, r: nat)
    requires IsHistory(states, events) && Orderly(true, states, events) && k < |states|
    requires v < |states[k].store.attempts| && states[k].store.attempts[v].kind == Verification
    ensures JobHasResult(states[k].store, states[k].store.attempts[v].job)
    ensures r < |states[k].store.results| && states[k].store.results[r].job == states[k].store.attempts[v].job ==>
              states[k].store.results[r].attempt < |states[k].store.attempts|
              && states[k].store.attempts[states[k].store.results[r].attempt].node != states[k].store.attempts[v].node
  {
    ShapeInEveryHistory(true, states, events, k);
    var store := states[k].store;
    assert VerifierOk(true, store, v);
    if r < |store.results| && store.results[r].job == store.attempts[v].job {
      assert Names(store, store.results[r].job, store.results[r].attempt);
    }
  }

  /**
   A verification offer that is not taken up turns its job, which is billed and has its result,
   into a failed one: lease expiry treats every attempt alike.
   */
  lemma IgnoredCheckFailsBilledJob(strict: bool, s: Service, a: AttemptId, w: World, now: Time)
    requires Shape(strict, s) && a < |s.store.attempts| && s.store.attempts[a].kind == Verification
    ensures var j, s' := s.store.attempts[a].job, HandleExpired(s, a, w, now);
            && j < |s'.store.jobs| && s'.store.jobs[j].state == Broken
            && JobHasResult(s'.store, j) && s'.store.ledger == s.store.ledger
  {
    var j := s.store.attempts[a].job;
    assert j < |s.store.jobs| && JobHasResult(s.store, j);
    SumAtLeast(s.store.attempts, VerifierFor(j), a);
    forall i | i in s.runs ensures i != j {
      assert RunOk(s, i);
    }
  }
}
