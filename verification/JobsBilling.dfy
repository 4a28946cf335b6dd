/**
 Exactly-once billing and the attempt life cycle, over every run of store steps in any order:
 late, duplicated and reordered messages, retries, cancellations and failures included.
 */
module JobsBilling {
  import opened Options
  import opened Sums
  import opened Charges
  import opened Jobs
  import Ledger
  import LedgerInvariant
  import LedgerEffects
  import LedgerRuns

  // ---------------------------------------------------------------- attempt status only climbs

  function Rank(status: Status): nat {
    match status
    case Offered => 0
    case Accepted => 1
    case Running => 2
    case Failed => 4
    case _ => 3
  }

  predicate SameAttempt(row: Attempt, row': Attempt) {
    && row'.job == row.job && row'.node == row.node && row'.kind == row.kind
    && row'.createdAt == row.createdAt && row'.leaseExpiresAt == row.leaseExpiresAt && row'.deadlineAt == row.deadlineAt
  }

  predicate Climbs(row: Attempt, row': Attempt) {
    SameAttempt(row, row') && (row'.status == row.status || Rank(row.status) < Rank(row'.status))
  }

  predicate AcceptedInTime(row: Attempt) {
    && row.acceptedAt.Some?
    && row.acceptedAt.value <= row.leaseExpiresAt
    && row.acceptedAt.value <= row.createdAt + ACCEPT_WINDOW
  }

  predicate FinishedInTime(row: Attempt) {
    row.finishedAt.Some? && row.finishedAt.value <= row.deadlineAt
  }

  predicate RowOk(row: Attempt) {
    && (row.status in {Accepted, Running, Succeeded, Verified} ==> AcceptedInTime(row))
    && (row.status == Succeeded ==> FinishedInTime(row))
  }

  /** An accepted completion changes only its own attempt row, from accepted or running to succeeded in time. */
  lemma CompletedRow(s: State, c: Completion, at: Time, hold: int, prices: Option<Prices>, a: AttemptId)
    requires CompleteJob(s, c, at, hold, prices).Ok? && a < |s.attempts|
    ensures var s' := CompleteJob(s, c, at, hold, prices).value;
            && |s'.attempts| == |s.attempts|
            && (a != c.attempt ==> s'.attempts[a] == s.attempts[a])
            && s.attempts[c.attempt].status in {Accepted, Running}
            && s'.attempts[c.attempt] == s.attempts[c.attempt].(status := Succeeded, finishedAt := Some(at))
            && at <= s.attempts[c.attempt].deadlineAt
  {
  }

  /** What a step may do to one attempt row. */
  predicate RowStep(row: Attempt, row': Attempt) {
    Climbs(row, row') && (RowOk(row) ==> RowOk(row'))
  }

  lemma FailureRow(s: State, step: Step, a: AttemptId)
    requires Possible(s, step) && a < |s.attempts|
    requires step.FailOne? || step.FailWhole? || step.VerifyFailed? || step.Expire? || step.OpCancel?
    ensures a < |Next(s, step).attempts| && RowStep(s.attempts[a], Next(s, step).attempts[a])
  {
  }

  lemma ProgressRow(s: State, step: Step, a: AttemptId)
    requires Possible(s, step) && a < |s.attempts|
    requires step.Accept? || step.Start? || step.Verify? || step.Offer? || step.OfferVerification?
    ensures a < |Next(s, step).attempts| && RowStep(s.attempts[a], Next(s, step).attempts[a])
  {
  }

  /** One store step, seen from one attempt row. */
  lemma StepRow(s: State, step: Step, a: AttemptId)
    requires Possible(s, step) && a < |s.attempts|
    ensures a < |Next(s, step).attempts| && RowStep(s.attempts[a], Next(s, step).attempts[a])
  {
    if step.FailOne? || step.FailWhole? || step.VerifyFailed? || step.Expire? || step.OpCancel? {
      FailureRow(s, step, a);
    } else if step.Accept? || step.Start? || step.Verify? || step.Offer? || step.OfferVerification? {
      ProgressRow(s, step, a);
    } else if step.Complete? {
      if CompleteJob(s, step.completion, step.at, step.creditHold, step.prices).Ok? {
        CompletedRow(s, step.completion, step.at, step.creditHold, step.prices, a);
      }
    }
  }

  lemma {:induction false} StatusOnlyClimbs(states: seq<State>, steps: seq<Step>, i: nat, k: nat, a: AttemptId)
    requires IsRun(states, steps) && i <= k < |states| && a < |states[i].attempts|
    ensures a < |states[k].attempts| && Climbs(states[i].attempts[a], states[k].attempts[a])
    decreases k
  {
    if i < k {
      StatusOnlyClimbs(states, steps, i, k - 1, a);
      assert StepAt(states, steps, k - 1);
      StepRow(states[k - 1], steps[k - 1], a);
    }
  }

  // ---------------------------------------------------------------- the invariant

  ghost function ResultOf(j: JobId): ResultRow -> int {
    (r: ResultRow) => if r.job == j then 1 else 0
  }

  ghost function Results(s: State, j: JobId): int {
    Sum(s.results, ResultOf(j))
  }

  ghost function Acceptances(s: State, j: JobId): int {
    Sum(s.ledger.txns, Ledger.AcceptanceOf(j))
  }

  /** A job has as many accepted results as posted acceptances, and at most one of each. */
  ghost predicate BilledOnce(s: State) {
    forall j: JobId :: Results(s, j) == Acceptances(s, j) <= 1
  }

  ghost predicate RowsOk(s: State) {
    && (forall a | 0 <= a < |s.attempts| :: RowOk(s.attempts[a]) && s.attempts[a].job < |s.jobs|)
    && (forall r | 0 <= r < |s.results| :: Names(s, s.results[r].job, s.results[r].attempt))
  }

  ghost predicate HasResultFor(s: State, j: JobId, a: AttemptId) {
    exists r | 0 <= r < |s.results| :: s.results[r].job == j && s.results[r].attempt == a
  }

  /** Whatever is marked succeeded was billed. */
  ghost predicate SucceededBilled(s: State) {
    forall a | 0 <= a < |s.attempts| && s.attempts[a].status == Succeeded :: HasResultFor(s, s.attempts[a].job, a)
  }

  ghost predicate Tables(s: State) {
    RowsOk(s) && SucceededBilled(s)
  }

  lemma NewRowTables(s: State, row: Attempt)
    requires Tables(s) && row.status == Offered && row.job < |s.jobs|
    ensures Tables(s.(attempts := s.attempts + [row]))
  {
    var s' := s.(attempts := s.attempts + [row]);
    forall a | 0 <= a < |s'.attempts| && s'.attempts[a].status == Succeeded
      ensures HasResultFor(s', s'.attempts[a].job, a)
    {
      assert HasResultFor(s, s.attempts[a].job, a);
    }
  }

  /** Rows that climb without newly succeeding keep the tables in order. */
  lemma QuietTables(s: State, s': State)
    requires Tables(s) && s'.results == s.results && |s'.jobs| >= |s.jobs| && |s'.attempts| == |s.attempts|
    requires forall a | 0 <= a < |s.attempts| ::
               RowOk(s'.attempts[a]) && s'.attempts[a].job == s.attempts[a].job
               && (s'.attempts[a].status == Succeeded ==> s.attempts[a].status == Succeeded)
    ensures Tables(s')
  {
    forall a | 0 <= a < |s'.attempts| && s'.attempts[a].status == Succeeded
      ensures HasResultFor(s', s'.attempts[a].job, a)
    {
      assert HasResultFor(s, s.attempts[a].job, a);
    }
  }

  lemma CompletedTables(s: State, c: Completion, at: Time, hold: int, prices: Option<Prices>)
    requires Tables(s) && CompleteJob(s, c, at, hold, prices).Ok?
    ensures Tables(CompleteJob(s, c, at, hold, prices).value)
  {
    var s' := CompleteJob(s, c, at, hold, prices).value;
    forall a | 0 <= a < |s'.attempts|
      ensures RowOk(s'.attempts[a]) && s'.attempts[a].job < |s'.jobs|
      ensures s'.attempts[a].status == Succeeded ==> HasResultFor(s', s'.attempts[a].job, a)
    {
      CompletedRow(s, c, at, hold, prices, a);
      if a == c.attempt {
        assert s'.results[|s.results|] == ResultRow(c.job, c.attempt, c.usage);
      } else if s.attempts[a].status == Succeeded {
        var r :| 0 <= r < |s.results| && s.results[r].job == s.attempts[a].job && s.results[r].attempt == a;
        assert s'.results[r] == s.results[r];
      }
    }
  }

  /** The steps that only rewrite attempt and job states. */
  predicate IsQuiet(step: Step) {
    !step.NewJob? && !step.Offer? && !step.OfferVerification? && !step.Complete?
  }

  lemma QuietStep(s: State, step: Step, a: AttemptId)
    requires Possible(s, step) && IsQuiet(step) && a < |s.attempts|
    ensures var s' := Next(s, step);
            && s'.results == s.results && |s'.jobs| == |s.jobs| && |s'.attempts| == |s.attempts|
            && (s'.attempts[a].status == Succeeded ==> s.attempts[a].status == Succeeded)
  {
  }

  lemma StepKeepsTables(s: State, step: Step)
    requires Possible(s, step) && Tables(s)
    ensures Tables(Next(s, step))
  {
    var s' := Next(s, step);
    match step
    case NewJob(_, _) => QuietTables(s, s');
    case Offer(j, n, lease, deadline, now) =>
      if j < |s.jobs| {
        NewRowTables(s, NewAttempt(j, n, Standard, lease, deadline, now));
        QuietTables(s.(attempts := s.attempts + [NewAttempt(j, n, Standard, lease, deadline, now)]), s');
      }
    case OfferVerification(j, n, lease, deadline, now) =>
      if j < |s.jobs| {
        NewRowTables(s, NewAttempt(j, n, Verification, lease, deadline, now));
      }
    case Complete(c, at, hold, prices) =>
      if CompleteJob(s, c, at, hold, prices).Ok? {
        CompletedTables(s, c, at, hold, prices);
      }
    case _ => QuietKeepsTables(s, step);
  }

  lemma QuietKeepsTables(s: State, step: Step)
    requires Possible(s, step) && IsQuiet(step) && Tables(s)
    ensures Tables(Next(s, step))
  {
    var s' := Next(s, step);
    if |s.attempts| > 0 { QuietStep(s, step, 0); } else { QuietEmpty(s, step); }
    forall a | 0 <= a < |s.attempts|
      ensures RowOk(s'.attempts[a]) && s'.attempts[a].job == s.attempts[a].job
      ensures s'.attempts[a].status == Succeeded ==> s.attempts[a].status == Succeeded
    {
      StepRow(s, step, a);
      QuietStep(s, step, a);
    }
    QuietTables(s, s');
  }

  lemma QuietEmpty(s: State, step: Step)
    requires Possible(s, step) && IsQuiet(step) && |s.attempts| == 0
    ensures Next(s, step).results == s.results && |Next(s, step).jobs| == |s.jobs| && |Next(s, step).attempts| == 0
  {
  }

  /** No step changes whose job it is or what it asks for. */
  lemma StepKeepsRequests(store: State, step: Step)
    requires Possible(store, step)
    ensures var store' := Next(store, step);
            && |store'.jobs| >= |store.jobs|
            && (forall j | 0 <= j < |store.jobs| ::
                  store'.jobs[j].request == store.jobs[j].request && store'.jobs[j].org == store.jobs[j].org)
  {
  }

  // ---------------------------------------------------------------- billing

  /** What a step of the job store does to the ledger is itself a ledger step, or nothing. */
  lemma LedgerMoves(s: State, step: Step) returns (moved: Option<LedgerRuns.Step>)
    requires Possible(s, step)
    ensures moved.None? ==> Next(s, step).ledger == s.ledger
    ensures moved.Some? ==> LedgerRuns.Possible(s.ledger, moved.value)
                            && Next(s, step).ledger == LedgerRuns.Next(s.ledger, moved.value)
    ensures moved.Some? && moved.value.Verify? ==> step.PostOverhead?
    ensures moved.Some? && moved.value.Accept? ==>
            step.Complete? && CompleteJob(s, step.completion, step.at, step.creditHold, step.prices).Ok?
  {
    moved := None;
    if step.Complete? {
      var c := step.completion;
      if CompleteJob(s, c, step.at, step.creditHold, step.prices).Ok? {
        moved := Some(LedgerRuns.Accept(PostingFor(c, step.at, step.creditHold),
          PricingFor(s, c.job, c.attempt, step.prices)));
      }
    } else if step.PostOverhead? {
      var c := step.completion;
      moved := Some(LedgerRuns.Verify(PostingFor(c, step.at, step.creditHold),
        PricingFor(s, c.job, c.attempt, step.prices)));
    } else if step.Payouts? {
      moved := Some(step.step);
    }
  }

  lemma StepKeepsLedger(s: State, step: Step)
    requires Possible(s, step) && LedgerInvariant.Inv(s.ledger)
    ensures LedgerInvariant.Inv(Next(s, step).ledger)
  {
    var moved := LedgerMoves(s, step);
    if moved.Some? {
      LedgerRuns.StepKeepsInv(s.ledger, moved.value);
    }
  }

  /** The kinds of transaction a ledger step may post, acceptances apart. */
  function PostedKinds(step: LedgerRuns.Step): set<Ledger.TxnKind> {
    if step.Verify? then {Ledger.VerificationCost} else {Ledger.CreditRelease, Ledger.HostPayout, Ledger.Reversal}
  }

  ghost predicate Ignores(f: Ledger.Txn -> int, kinds: set<Ledger.TxnKind>) {
    forall t: Ledger.Txn | t.kind in kinds :: f(t) == 0
  }

  lemma PayoutTxns(s: Ledger.State, step: LedgerRuns.Step)
    requires LedgerRuns.Possible(s, step) && (step.Verify? || step.ExportFile? || step.ConfirmFile? || step.VoidPayout?)
    ensures var t := LedgerRuns.Next(s, step).txns;
            t == s.txns || (|t| == |s.txns| + 1 && t[..|s.txns|] == s.txns && t[|s.txns|].kind in PostedKinds(step))
  {
  }

  /** A measure that ignores what a ledger step posts is not changed by it. */
  lemma OtherStepsPostNone(s: Ledger.State, step: LedgerRuns.Step, f: Ledger.Txn -> int)
    requires LedgerRuns.Possible(s, step) && !step.Accept? && Ignores(f, PostedKinds(step))
    ensures Sum(LedgerRuns.Next(s, step).txns, f) == Sum(s.txns, f)
  {
    if step.Promote? {
      if Ledger.InTable(step.due, |s.holds|) {
        ReleasePostsNone(s, step.due, step.at, f);
      }
    } else if step.Create? {
      if Ledger.InTable(step.payable, |s.holds|) {
        Ledger.ReserveKeepsTxns(Ledger.OpenBatch(s), |s.batches|, step.payable);
      }
    } else {
      PayoutTxns(s, step);
      OtherPosting(s.txns, LedgerRuns.Next(s, step).txns, PostedKinds(step), f);
    }
  }

  lemma OtherPosting(txns: seq<Ledger.Txn>, t: seq<Ledger.Txn>, kinds: set<Ledger.TxnKind>, f: Ledger.Txn -> int)
    requires t == txns || (|t| == |txns| + 1 && t[..|txns|] == txns && t[|txns|].kind in kinds)
    requires Ignores(f, kinds)
    ensures Sum(t, f) == Sum(txns, f)
  {
    if t != txns {
      SumAppend(txns, t[|txns|], f);
      assert t == txns + [t[|txns|]];
    }
  }

  lemma {:induction false} ReleasePostsNone(s: Ledger.State, rows: seq<nat>, now: Time, f: Ledger.Txn -> int)
    requires Ledger.InTable(rows, |s.holds|) && Ignores(f, {Ledger.CreditRelease, Ledger.HostPayout, Ledger.Reversal})
    ensures Sum(Ledger.Release(s, rows, now).txns, f) == Sum(s.txns, f)
  {
    if rows != [] {
      var n := |rows| - 1;
      ReleasePostsNone(s, rows[..n], now, f);
      var mid := Ledger.Release(s, rows[..n], now);
      var s' := Ledger.ReleaseOne(mid, rows[n], now);
      SumAppend(mid.txns, s'.txns[|mid.txns|], f);
    }
  }

  /** An accepted completion adds one result and one acceptance, both for its own job. */
  lemma PostedAcceptance(l: Ledger.State, p: Ledger.Posting, pricing: Option<Ledger.Pricing>, l': Ledger.State,
                         j: JobId)
    requires Ledger.PostAccepted(l, p, pricing) == Ledger.Ok(l')
    ensures Sum(l'.txns, Ledger.AcceptanceOf(j)) == Sum(l.txns, Ledger.AcceptanceOf(j)) + if j == p.job then 1 else 0
  {
    SumAppend(l.txns, l'.txns[|l.txns|], Ledger.AcceptanceOf(j));
  }

  lemma CompletionBills(s: State, c: Completion, at: Time, hold: int, prices: Option<Prices>, j: JobId)
    requires CompleteJob(s, c, at, hold, prices).Ok?
    ensures var s' := CompleteJob(s, c, at, hold, prices).value;
            && Results(s', j) == Results(s, j) + (if j == c.job then 1 else 0)
            && Acceptances(s', j) == Acceptances(s, j) + (if j == c.job then 1 else 0)
            && Acceptances(s', c.job) == 1
  {
    var s', p := CompleteJob(s, c, at, hold, prices).value, PostingFor(c, at, hold);
    SumAppend(s.results, ResultRow(c.job, c.attempt, c.usage), ResultOf(j));
    PostedAcceptance(s.ledger, p, PricingFor(s, c.job, c.attempt, prices), s'.ledger, j);
    LedgerEffects.AcceptanceCountedOnce(s.ledger, p, PricingFor(s, c.job, c.attempt, prices));
  }

  lemma QuietResults(s: State, step: Step)
    requires Possible(s, step)
    ensures !(step.Complete? && CompleteJob(s, step.completion, step.at, step.creditHold, step.prices).Ok?) ==>
              Next(s, step).results == s.results
  {
  }

  lemma StepKeepsBilling(s: State, step: Step)
    requires Possible(s, step) && BilledOnce(s)
    ensures BilledOnce(Next(s, step))
  {
    var s' := Next(s, step);
    QuietResults(s, step);
    var moved := LedgerMoves(s, step);
    forall j: JobId ensures Results(s', j) == Acceptances(s', j) <= 1 {
      assert Results(s, j) == Acceptances(s, j) <= 1;
      if step.Complete? && CompleteJob(s, step.completion, step.at, step.creditHold, step.prices).Ok? {
        CompletionBills(s, step.completion, step.at, step.creditHold, step.prices, j);
      } else if moved.Some? {
        OtherStepsPostNone(s.ledger, moved.value, Ledger.AcceptanceOf(j));
      }
    }
  }

  ghost predicate Inv(s: State) {
    LedgerInvariant.Inv(s.ledger) && BilledOnce(s) && Tables(s)
  }

  lemma NoRowsInv(s: State)
    requires |s.jobs| == |s.attempts| == |s.results| == |s.ledger.txns| == 0
    ensures BilledOnce(s) && Tables(s)
  {
    forall j: JobId ensures Results(s, j) == Acceptances(s, j) <= 1 {
    }
  }

  lemma EmptyInv()
    ensures Inv(EMPTY)
  {
    var s := EMPTY;
    NoRowsInv(s);
    LedgerInvariant.EmptyInv();
  }

  lemma StepKeepsInv(s: State, step: Step)
    requires Possible(s, step) && Inv(s)
    ensures Inv(Next(s, step))
  {
    StepKeepsLedger(s, step);
    StepKeepsBilling(s, step);
    StepKeepsTables(s, step);
  }

  /**
   In every state of every run each job has at most one accepted result and at most one posted
   acceptance, one exactly when the other; and the ledger is reconciled.
   */
  lemma {:induction false} ExactlyOnceBilling(states: seq<State>, steps: seq<Step>, k: nat)
    requires IsRun(states, steps) && states[0] == EMPTY && k < |states|
    ensures Inv(states[k])
  {
    if k == 0 {
      EmptyInv();
    } else {
      ExactlyOnceBilling(states, steps, k - 1);
      assert StepAt(states, steps, k - 1);
      StepKeepsInv(states[k - 1], steps[k - 1]);
    }
  }

  /** Anything currently succeeded was accepted inside the offer window and finished by its deadline. */
  lemma SucceededWasInTime(states: seq<State>, steps: seq<Step>, k: nat, a: AttemptId)
    requires IsRun(states, steps) && states[0] == EMPTY && k < |states|
    requires a < |states[k].attempts| && states[k].attempts[a].status == Succeeded
    ensures AcceptedInTime(states[k].attempts[a]) && FinishedInTime(states[k].attempts[a])
  {
    ExactlyOnceBilling(states, steps, k);
    assert RowOk(states[k].attempts[a]);
  }

  // ---------------------------------------------------------------- when a completion is accepted

  lemma {:induction false} CountMeansResult(results: seq<ResultRow>, j: JobId)
    ensures Sum(results, ResultOf(j)) == 0 <==> forall r | 0 <= r < |results| :: results[r].job != j
    ensures Sum(results, ResultOf(j)) >= 0
  {
    if results != [] {
      CountMeansResult(results[..|results| - 1], j);
    }
  }

  lemma {:induction false} CountMeansAcceptance(txns: seq<Ledger.Txn>, j: JobId)
    ensures Sum(txns, Ledger.AcceptanceOf(j)) == 0
            <==> forall t | 0 <= t < |txns| ::
              !(txns[t].kind == Ledger.JobAcceptance && txns[t].ref == Ledger.ForJob(j))
    ensures Sum(txns, Ledger.AcceptanceOf(j)) >= 0
  {
    if txns != [] {
      CountMeansAcceptance(txns[..|txns| - 1], j);
    }
  }

  /** In a reachable state a job is billed exactly when it has an accepted result. */
  lemma BilledIffResult(s: State, j: JobId)
    requires BilledOnce(s)
    ensures Ledger.HasAcceptance(s.ledger, j) <==> Results(s, j) == 1
    ensures Results(s, j) == 0 || Results(s, j) == 1
    ensures Results(s, j) == 0 <==> forall r | 0 <= r < |s.results| :: s.results[r].job != j
  {
    assert Results(s, j) == Acceptances(s, j) <= 1;
    CountMeansResult(s.results, j);
    CountMeansAcceptance(s.ledger.txns, j);
  }

  lemma PostingAcceptedIff(s: State, c: Completion, at: Time, hold: int, prices: Prices)
    requires BilledOnce(s) && Names(s, c.job, c.attempt) && c.job < |s.jobs|
    ensures Ledger.PostAccepted(s.ledger, PostingFor(c, at, hold), PricingFor(s, c.job, c.attempt, Some(prices))).Ok?
            <==> Results(s, c.job) == 0 && !Ledger.HasHold(s.ledger, c.attempt) && HostCredit(c.usage, prices) >= 0
  {
    BilledIffResult(s, c.job);
    LedgerEffects.AcceptanceMoves(s.ledger, PostingFor(c, at, hold),
      PricingFor(s, c.job, c.attempt, Some(prices)).value);
  }

  /** While the job has no accepted result, the guards about other attempts and earlier results pass. */
  lemma UnbilledGuardsPass(s: State, j: JobId, a: AttemptId)
    requires BilledOnce(s) && Tables(s) && Names(s, j, a) && Results(s, j) == 0
    ensures !SucceededElsewhere(s, j, a) && s.attempts[a].status != Succeeded && !HasResult(s, a)
  {
    BilledIffResult(s, j);
    forall o | 0 <= o < |s.attempts| && s.attempts[o].job == j && (s.attempts[o].status == Succeeded || HasResult(s, o))
      ensures JobHasResult(s, j)
    {
      SuccessMeansResult(s, o);
    }
  }

  /**
   Whatever the prices, a completion is accepted exactly when it names an accepted or running attempt
   of its job, arrives by the deadline, the job has no accepted result yet, the attempt holds no
   credit yet, the token counts can be stored, and there is a price at which the credit is not
   negative. In particular a duplicate is always refused.
   */
  lemma CompletionAcceptedIff(s: State, c: Completion, at: Time, hold: int, prices: Option<Prices>)
    requires BilledOnce(s) && Tables(s)
    ensures CompleteJob(s, c, at, hold, prices).Ok? <==>
            (&& Names(s, c.job, c.attempt)
             && (s.attempts[c.attempt].status == Accepted || s.attempts[c.attempt].status == Running)
             && at <= s.attempts[c.attempt].deadlineAt
             && Results(s, c.job) == 0
             && !Ledger.HasHold(s.ledger, c.attempt)
             && 0 <= c.usage.prompt < 0x8000_0000 && 0 <= c.usage.completion < 0x8000_0000
             && prices.Some? && HostCredit(c.usage, prices.value) >= 0)
  {
    if Names(s, c.job, c.attempt) {
      assert RowOk(s.attempts[c.attempt]);
      if prices.Some? {
        PostingAcceptedIff(s, c, at, hold, prices.value);
      }
      if Results(s, c.job) == 0 {
        UnbilledGuardsPass(s, c.job, c.attempt);
      }
    }
  }

  ghost predicate JobHasResult(s: State, j: JobId) {
    exists r | 0 <= r < |s.results| :: s.results[r].job == j
  }

  /** A succeeded attempt, or one with a result, belongs to a job that has an accepted result. */
  lemma SuccessMeansResult(s: State, a: AttemptId)
    requires Tables(s) && a < |s.attempts| && (s.attempts[a].status == Succeeded || HasResult(s, a))
    ensures JobHasResult(s, s.attempts[a].job)
  {
    if s.attempts[a].status == Succeeded {
      assert HasResultFor(s, s.attempts[a].job, a);
    } else {
      var r :| 0 <= r < |s.results| && s.results[r].attempt == a;
      assert Names(s, s.results[r].job, s.results[r].attempt);
    }
  }

  // ---------------------------------------------------------------- consequences

  /** The unique index on succeeded attempts can never be what refuses a completion. */
  lemma OneSuccessPerJob(s: State, a: AttemptId, b: AttemptId)
    requires BilledOnce(s) && Tables(s) && a < |s.attempts| && b < |s.attempts|
    requires s.attempts[a].status == Succeeded && s.attempts[b].status == Succeeded
             && s.attempts[a].job == s.attempts[b].job
    ensures a == b
  {
    var j := s.attempts[a].job;
    assert HasResultFor(s, j, a) && HasResultFor(s, j, b);
    var p :| 0 <= p < |s.results| && s.results[p].job == j && s.results[p].attempt == a;
    var q :| 0 <= q < |s.results| && s.results[q].job == j && s.results[q].attempt == b;
    assert Results(s, j) <= 1;
    if p < q {
      SumAtLeastTwo(s.results, ResultOf(j), p, q);
    } else if q < p {
      SumAtLeastTwo(s.results, ResultOf(j), q, p);
    }
  }

  /** A job shown as succeeded has been billed; the converse fails, because FailJob has no guard on the state. */
  ghost predicate DoneMeansBilled(s: State) {
    forall j: nat | j < |s.jobs| && s.jobs[j].state == Done :: JobHasResult(s, j)
  }

  /** A job becomes succeeded only through an accepted completion of its own. */
  lemma BecomesDone(s: State, step: Step, j: JobId)
    requires Possible(s, step) && j < |Next(s, step).jobs| && Next(s, step).jobs[j].state == Done
    ensures || (j < |s.jobs| && s.jobs[j].state == Done)
            || (step.Complete? && step.completion.job == j
               && CompleteJob(s, step.completion, step.at, step.creditHold, step.prices).Ok?)
  {
  }

  lemma {:induction false} DoneIsBilledInEveryRun(states: seq<State>, steps: seq<Step>, k: nat)
    requires IsRun(states, steps) && states[0] == EMPTY && k < |states|
    ensures DoneMeansBilled(states[k])
  {
    if k > 0 {
      DoneIsBilledInEveryRun(states, steps, k - 1);
      assert StepAt(states, steps, k - 1);
      var s, step, s' := states[k - 1], steps[k - 1], states[k];
      forall j: nat | j < |s'.jobs| && s'.jobs[j].state == Done ensures JobHasResult(s', j) {
        BecomesDone(s, step, j);
        DoneStaysBilled(s, step, j);
      }
    }
  }

  lemma DoneStaysBilled(s: State, step: Step, j: JobId)
    requires Possible(s, step)
    requires JobHasResult(s, j)
             || (step.Complete? && step.completion.job == j
                && CompleteJob(s, step.completion, step.at, step.creditHold, step.prices).Ok?)
    ensures JobHasResult(Next(s, step), j)
  {
    var s' := Next(s, step);
    QuietResults(s, step);
    if JobHasResult(s, j) {
      var r :| 0 <= r < |s.results| && s.results[r].job == j;
      assert s'.results[r] == s.results[r];
    } else {
      assert s'.results[|s.results|].job == j;
    }
  }

  /** Expiring leases lists exactly the offers that are overdue, each once and in order. */
  lemma {:induction false} ExpiredIdsExact(attempts: seq<Attempt>, now: Time, a: AttemptId)
    ensures a in ExpiredIds(attempts, now) <==> a < |attempts| && LeaseOver(attempts[a], now)
    ensures forall i, j | 0 <= i < j < |ExpiredIds(attempts, now)| ::
            ExpiredIds(attempts, now)[i] < ExpiredIds(attempts, now)[j]
  {
    if attempts != [] {
      ExpiredIdsExact(attempts[..|attempts| - 1], now, a);
    }
  }

  lemma AnyState(state: JobState)
    ensures state in ANY
  {
  }

  /** What an accepted completion leaves behind: the job done, its attempt succeeded, one result and one credit more. */
  lemma CompletionEffects(s: State, c: Completion, at: Time, hold: int, prices: Prices)
    requires CompleteJob(s, c, at, hold, Some(prices)).Ok? && c.job < |s.jobs|
    ensures var s' := CompleteJob(s, c, at, hold, Some(prices)).value;
            && s'.jobs == s.jobs[c.job := s.jobs[c.job].(state := Done)]
            && s'.attempts
               == s.attempts[c.attempt := s.attempts[c.attempt].(status := Succeeded, finishedAt := Some(at))]
            && s'.results == s.results + [ResultRow(c.job, c.attempt, c.usage)]
            && |s'.ledger.holds| == |s.ledger.holds| + 1
            && s'.ledger.holds[|s.ledger.holds|].job == c.job
            && s'.ledger.holds[|s.ledger.holds|].amount == HostCredit(c.usage, prices)
  {
    AnyState(s.jobs[c.job].state);
  }

  /** The first completion of all, reported in time for an accepted attempt, is billed. */
  lemma FirstBill(s: State, c: Completion, at: Time, hold: int, prices: Prices)
    requires |s.attempts| == 1 && c.attempt == 0 && s.attempts[0].job == c.job < |s.jobs|
             && s.attempts[0].status == Accepted
    requires AcceptedInTime(s.attempts[0]) && at <= s.attempts[0].deadlineAt
    requires s.results == [] && s.ledger.txns == [] && s.ledger.holds == []
    requires StorableUsage(c.usage) && HostCredit(c.usage, prices) >= 0
    ensures CompleteJob(s, c, at, hold, Some(prices)).Ok?
  {
    var q := Ledger.Pricing(s.jobs[c.job].org, s.attempts[0].node, prices);
    assert PricingFor(s, c.job, c.attempt, Some(prices)) == Some(q);
    LedgerEffects.AcceptanceMoves(s.ledger, PostingFor(c, at, hold), q);
  }
}
