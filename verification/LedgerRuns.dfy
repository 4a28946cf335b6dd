/**
 Whole runs of the ledger: any sequence of postings, releases and payout steps, each
 committed or rolled back, and what holds after every one of them.
 */
module LedgerRuns {
  import opened Options
  import opened Int64
  import opened Sums
  import opened Ledger
  import opened LedgerInvariant
  import opened LedgerPostings
  import opened LedgerPayouts

  datatype Step =
    | Accept(posting: Posting, pricing: Option<Pricing>)
    | Verify(posting: Posting, pricing: Option<Pricing>)
    | Promote(due: seq<nat>, at: Time)
    | Create(nodes: Option<set<NodeId>>, payable: seq<nat>)
    | ExportFile(batch: nat)
    | ConfirmFile(batch: nat, rows: seq<Row>, at: Time)
    | VoidPayout(batch: nat, at: Time)

  /** Inputs as the store can receive them: int64 amounts, and query results that match the query. */
  ghost predicate Possible(s: State, step: Step) {
    match step
    case Accept(p, _) => Fits(p.overhead)
    case Promote(rows, now) => DueRows(s, now, rows)
    case Create(nodes, rows) => PayableRows(s, nodes, rows)
    case _ => true
  }

  function OrElse(r: Result<State>, s: State): State {
    match r
    case Ok(s') => s'
    case Err(_) => s
  }

  ghost function Next(s: State, step: Step): State
    requires Possible(s, step)
  {
    match step
    case Accept(p, pricing) => OrElse(PostAccepted(s, p, pricing), s)
    case Verify(p, pricing) => OrElse(PostVerification(s, p, pricing), s)
    case Promote(rows, now) => if InTable(rows, |s.holds|) then Release(s, rows, now) else s
    case Create(_, rows) => if InTable(rows, |s.holds|) then OrElse(CreateBatch(s, rows), s) else s
    case ExportFile(b) => OrElse(Export(s, b), s)
    case ConfirmFile(b, rows, now) => OrElse(Confirm(s, b, rows, now), s)
    case VoidPayout(b, now) => OrElse(VoidBatch(s, b, now), s)
  }

  /** The states a run passes through; each step is possible where it is taken. */
  ghost predicate IsRun(states: seq<State>, steps: seq<Step>) {
    && |states| == |steps| + 1
    && (forall k: nat | k < |steps| :: StepAt(states, steps, k))
  }

  ghost predicate StepAt(states: seq<State>, steps: seq<Step>, k: nat)
    requires |states| == |steps| + 1 && k < |steps|
  {
    Possible(states[k], steps[k]) && states[k + 1] == Next(states[k], steps[k])
  }

  lemma StepKeepsInv(s: State, step: Step)
    requires Inv(s) && Possible(s, step)
    ensures Inv(Next(s, step))
  {
    match step
    case Accept(p, pricing) => PostAcceptedKeepsInv(s, p, pricing);
    case Verify(p, pricing) => PostVerificationKeepsInv(s, p, pricing);
    case Promote(rows, now) => ReleaseKeepsInv(s, rows, now);
    case Create(nodes, rows) => CreateKeepsInv(s, nodes, rows);
    case ExportFile(b) => ExportKeepsInv(s, b);
    case ConfirmFile(b, rows, now) => ConfirmKeepsInv(s, b, rows, now);
    case VoidPayout(b, now) => if b < |s.batches| { VoidKeepsInv(s, b, now); }
  }

  /** Ledger, holds and payout items agree in every state of every run from the empty ledger. */
  lemma {:induction false} EveryRunReconciles(states: seq<State>, steps: seq<Step>, k: nat)
    requires IsRun(states, steps) && states[0] == EMPTY && k < |states|
    ensures Inv(states[k])
  {
    if k == 0 {
      EmptyInv();
    } else {
      EveryRunReconciles(states, steps, k - 1);
      assert StepAt(states, steps, k - 1);
      StepKeepsInv(states[k - 1], steps[k - 1]);
    }
  }

  // ---------------------------------------------------------------- the life of one hold

  /** How one step may move a hold; leaving pending needs a release dated at or after its release time. */
  ghost predicate HoldMoves(h: Hold, h': Hold, step: Step) {
    && h' == h.(state := h'.state, batch := h'.batch)
    && match h.state
       case Pending => h' == h || (step.Promote? && h.availableAt <= step.at && h'.state == Available
         && h'.batch == h.batch)
       case Available => h' == h || (step.Create? && h'.state == PayoutPending)
       case PayoutPending =>
         h' == h || (step.VoidPayout? && h'.state == Available)
           || (step.ConfirmFile? && h'.state == Paid && h'.batch == h.batch)
       case Paid => h' == h || (step.VoidPayout? && h'.state == Reversed && h'.batch == h.batch)
       case Reversed => h' == h
  }

  lemma PostingMovesNone(s: State, step: Step, h: nat)
    requires Possible(s, step) && h < |s.holds| && (step.Accept? || step.Verify? || step.ExportFile?)
    ensures h < |Next(s, step).holds| && Next(s, step).holds[h] == s.holds[h]
  {
  }

  lemma ConfirmMovesHold(s: State, b: nat, rows: seq<Row>, now: Time, h: nat)
    requires h < |s.holds|
    ensures var s' := OrElse(Confirm(s, b, rows, now), s);
            |s'.holds| == |s.holds| && (s'.holds[h] == s.holds[h] || s'.holds[h] == SettleHold(b)(s.holds[h]))
  {
  }

  lemma VoidMovesHold(s: State, b: nat, now: Time, h: nat)
    requires HoldsOk(s) && h < |s.holds|
    ensures var s' := OrElse(VoidBatch(s, b, now), s);
            && |s'.holds| == |s.holds|
            && (s'.holds[h] == s.holds[h]
                || (s.holds[h].state == PayoutPending && s'.holds[h] == s.holds[h].(state := Available, batch := None))
                || (s.holds[h].state == Paid && s'.holds[h] == s.holds[h].(state := Reversed)))
  {
    assert HoldOk(s, s.holds[h]);
  }

  lemma StepMovesHold(s: State, step: Step, h: nat)
    requires Inv(s) && Possible(s, step) && h < |s.holds|
    ensures h < |Next(s, step).holds| && HoldMoves(s.holds[h], Next(s, step).holds[h], step)
  {
    match step
    case Promote(rows, now) =>
      if InTable(rows, |s.holds|) {
        PromoteReleasesExactlyTheDue(s, rows, now, h);
      }
    case Create(nodes, rows) =>
      PayablePrefix(s, nodes, rows, |rows|);
      CreateMovesHold(s, nodes, rows, h);
    case ConfirmFile(b, rows, now) => ConfirmMovesHold(s, b, rows, now, h);
    case VoidPayout(b, now) => VoidMovesHold(s, b, now, h);
    case _ => PostingMovesNone(s, step, h);
  }

  lemma CreateMovesHold(s: State, nodes: Option<set<NodeId>>, rows: seq<nat>, h: nat)
    requires PayableRows(s, nodes, rows) && InTable(rows, |s.holds|) && h < |s.holds|
    ensures var h' := OrElse(CreateBatch(s, rows), s).holds;
            |h'| == |s.holds|
            && (h'[h] == s.holds[h]
                || (s.holds[h].state == Available
                   && h'[h] == s.holds[h].(state := PayoutPending, batch := Some(|s.batches|))))
  {
    ReservedRows(OpenBatch(s), |s.batches|, rows, h);
    if h in rows {
      var i :| 0 <= i < |rows| && rows[i] == h;
      assert Payable(s, nodes, rows[i]);
    }
  }

  predicate PaidOrReversed(h: Hold) {
    h.state == Paid || h.state == Reversed
  }

  /** The hold is still with its batch and still paid or reversed; a reversed one has not moved at all. */
  predicate StillPaid(h: Hold, h': Hold) {
    h'.batch == h.batch && PaidOrReversed(h') && (h.state == Reversed ==> h' == h)
  }

  lemma PaidStays(s: State, step: Step, h: nat)
    requires Inv(s) && Possible(s, step) && h < |s.holds| && PaidOrReversed(s.holds[h])
    ensures h < |Next(s, step).holds| && StillPaid(s.holds[h], Next(s, step).holds[h])
  {
    StepMovesHold(s, step, h);
  }

  lemma PaidStaysInRun(states: seq<State>, steps: seq<Step>, k: nat, h: nat)
    requires IsRun(states, steps) && states[0] == EMPTY && k < |steps|
    requires h < |states[k].holds| && PaidOrReversed(states[k].holds[h])
    ensures h < |states[k + 1].holds| && StillPaid(states[k].holds[h], states[k + 1].holds[h])
  {
    EveryRunReconciles(states, steps, k);
    assert StepAt(states, steps, k);
    PaidStays(states[k], steps[k], h);
  }

  /** Once paid, a hold stays with its batch, is never paid again, and once reversed never moves at all. */
  lemma {:induction false} PaidOnce(states: seq<State>, steps: seq<Step>, i: nat, k: nat, h: nat)
    requires IsRun(states, steps) && states[0] == EMPTY && i <= k < |states|
    requires h < |states[i].holds| && PaidOrReversed(states[i].holds[h])
    ensures h < |states[k].holds| && StillPaid(states[i].holds[h], states[k].holds[h])
    decreases k
  {
    if i < k {
      PaidOnce(states, steps, i, k - 1, h);
      PaidStaysInRun(states, steps, k - 1, h);
    }
  }

  ghost function LiveFor(h: nat): Item -> int {
    (i: Item) => if i.hold == h && i.status != ItemVoid then 1 else 0
  }

  /** No hold is promised twice; one that is pending, available or reversed is not promised at all. */
  lemma NoCreditPromisedTwice(s: State, h: nat)
    requires Inv(s) && h < |s.holds|
    ensures Sum(s.items, LiveFor(h)) <= 1
    ensures s.holds[h].state in {Pending, Available, Reversed} ==> Sum(s.items, LiveFor(h)) == 0
  {
    AtMostOneLive(s, |s.items|, h);
    assert s.items[..|s.items|] == s.items;
    assert HoldOk(s, s.holds[h]);
    if s.holds[h].state in {Pending, Available, Reversed} {
      forall i | 0 <= i < |s.items| ensures LiveFor(h)(s.items[i]) == 0 {
        assert ItemOk(s, s.items[i]);
      }
      SumZero(s.items, LiveFor(h));
    }
  }

  lemma {:induction false} AtMostOneLive(s: State, n: nat, h: nat)
    requires LiveItemsDiffer(s) && n <= |s.items|
    ensures Sum(s.items[..n], LiveFor(h)) <= 1
  {
    if n > 0 {
      assert s.items[..n][..n - 1] == s.items[..n - 1];
      AtMostOneLive(s, n - 1, h);
      if LiveFor(h)(s.items[n - 1]) == 1 {
        SumZero(s.items[..n - 1], LiveFor(h));
      }
    }
  }

  /** The recorded total is the batch's worth exactly while that worth fits an int64; a paid batch's always does. */
  lemma TotalIsWorth(s: State, b: nat)
    requires Inv(s) && b < |s.batches| && s.batches[b].status != Void
    ensures Sum(s.holds, HeldIn(b)) == Sum(s.items, ItemIn(b))
    ensures s.batches[b].total == Sum(s.items, ItemIn(b)) <==> Fits(Sum(s.items, ItemIn(b)))
    ensures s.batches[b].status == PaidOut ==> s.batches[b].total == Sum(s.items, ItemIn(b))
    ensures Sum(s.items, ItemIn(b)) > 0
  {
    assert BatchOk(s, b) && BatchAgrees(s, b);
    var i :| 0 <= i < |s.items| && s.items[i].batch == b;
    assert forall k | 0 <= k < |s.items| :: ItemOk(s, s.items[k]);
    SumAtLeast(s.items, ItemIn(b), i);
  }

  // ---------------------------------------------------------------- confirming a payout file

  ghost predicate RowsWellFormed(rows: seq<Row>) {
    rows != [] && forall i | 0 <= i < |rows| :: WellFormed(rows[i])
  }

  ghost function BatchWorthTo(s: State, b: nat, n: NodeId): int {
    Sum(s.items, ItemInFor(b, n))
  }

  lemma MatchesIffCongruent(s: State, b: nat, rows: seq<Row>)
    requires RowsOk(s) && b < |s.batches| && s.batches[b].status == Exported
    ensures Matches(s.items, b, rows)
            <==> forall n: NodeId :: (BatchWorthTo(s, b, n) - Sum(rows, RowFor(n))) % TWO64 == 0
  {
    ExportedIsAll(s, b);
    forall n: NodeId {
      WrapZero(BatchWorthTo(s, b, n) - Sum(rows, RowFor(n)));
    }
  }

  /**
   A well-formed confirmation of an exported batch is accepted exactly when the batch's worth fits an
   int64 and, host by host, the rows and the batch's items differ by a multiple of 2^64; order and
   splitting of rows are immaterial.
   */
  lemma ConfirmAccepts(s: State, b: nat, rows: seq<Row>, now: Time)
    requires Inv(s) && b < |s.batches| && s.batches[b].status == Exported && RowsWellFormed(rows)
    ensures Confirm(s, b, rows, now).Ok? <==>
            Fits(Sum(s.items, ItemIn(b))) && forall n: NodeId ::
              (BatchWorthTo(s, b, n) - Sum(rows, RowFor(n))) % TWO64 == 0
  {
    if Fits(Sum(s.items, ItemIn(b))) {
      PayoutCommits(s, b);
    } else if Balanced(PayoutEntries(s, b)) && PayoutTotal(s, b) > 0 {
      BalancedPayoutIsExact(s, b);
    }
    MatchesIffCongruent(s, b, rows);
  }

  /** An exported batch whose worth fits an int64 has a positive total and a balanced payout. */
  lemma PayoutCommits(s: State, b: nat)
    requires Inv(s) && b < |s.batches| && s.batches[b].status == Exported && Fits(Sum(s.items, ItemIn(b)))
    ensures PayoutTotal(s, b) > 0 && Balanced(PayoutEntries(s, b))
  {
    ExportedIsAll(s, b);
    TotalIsWorth(s, b);
    DebitSums(s.items, b, PayoutCash);
    SumAppend(PayoutDebits(s.items, b), Entry(PayoutCash, Wrap(-PayoutTotal(s, b))), AmountOf());
  }

  /** While no host's difference reaches 2^64, that is equality of the per-host totals. */
  lemma ConfirmAcceptsExactTotals(s: State, b: nat, rows: seq<Row>, now: Time)
    requires Inv(s) && b < |s.batches| && s.batches[b].status == Exported && RowsWellFormed(rows)
    requires forall n: NodeId :: -TWO64 < BatchWorthTo(s, b, n) - Sum(rows, RowFor(n)) < TWO64
    ensures Confirm(s, b, rows, now).Ok? <==>
            Fits(Sum(s.items, ItemIn(b))) && forall n: NodeId :: BatchWorthTo(s, b, n) == Sum(rows, RowFor(n))
  {
    ConfirmAccepts(s, b, rows, now);
    forall n: NodeId
      ensures (BatchWorthTo(s, b, n) - Sum(rows, RowFor(n))) % TWO64 == 0
              <==> BatchWorthTo(s, b, n) == Sum(rows, RowFor(n))
    {
      SmallMultiple(BatchWorthTo(s, b, n) - Sum(rows, RowFor(n)));
    }
  }

  lemma SmallMultiple(x: int)
    requires -TWO64 < x < TWO64
    ensures x % TWO64 == 0 <==> x == 0
  {
  }

  /** Four rows that overstate a host's payout by 2^64 pass: equality of totals is not what is checked. */
  lemma OverstatedConfirmationPasses(s: State, b: nat, host: NodeId, now: Time)
    requires Inv(s) && b < |s.batches| && s.batches[b].status == Exported
    requires Fits(Sum(s.items, ItemIn(b))) && Fits(BatchWorthTo(s, b, host))
    requires forall n: NodeId | n != host :: BatchWorthTo(s, b, n) == 0
    ensures var big := Row(host, Some(TWO63 - 1));
            var rows := [big, big, Row(host, Some(2)), Row(host, Some(BatchWorthTo(s, b, host)))];
            && Confirm(s, b, rows, now).Ok?
            && Sum(rows, RowFor(host)) == BatchWorthTo(s, b, host) + TWO64
  {
    var big := Row(host, Some(TWO63 - 1));
    var two := Row(host, Some(2));
    var rest := Row(host, Some(BatchWorthTo(s, b, host)));
    var rows := [big, big, two, rest];
    forall n: NodeId
      ensures Sum(rows, RowFor(n)) == if n == host then BatchWorthTo(s, b, host) + TWO64 else 0
    {
      FourRows(big, big, two, rest, RowFor(n));
    }
    ConfirmAccepts(s, b, rows, now);
  }

  lemma FourRows(w: Row, x: Row, y: Row, z: Row, f: Row -> int)
    ensures Sum([w, x, y, z], f) == f(w) + f(x) + f(y) + f(z)
  {
    assert [w, x, y, z] == (([] + [w]) + [x]) + [y] + [z];
    SumAppend([], w, f);
    SumAppend([] + [w], x, f);
    SumAppend([] + [w] + [x], y, f);
    SumAppend([] + [w] + [x] + [y], z, f);
  }

  lemma {:induction false} ExportedRowSums(items: seq<Item>, b: nat, n: NodeId)
    requires forall i | 0 <= i < |items| && items[i].batch == b :: items[i].status != ItemVoid
    ensures Sum(ExportRows(items, b), RowFor(n)) == Sum(items, ItemInFor(b, n))
  {
    if items != [] {
      var k := |items| - 1;
      ExportedRowSums(items[..k], b, n);
      if items[k].batch == b {
        SumAppend(ExportRows(items[..k], b), Row(items[k].node, Some(items[k].amount)), RowFor(n));
      } else {
        assert ExportRows(items, b) == ExportRows(items[..k], b);
      }
    }
  }

  lemma {:induction false} ExportedRowsFit(s: State, items: seq<Item>, b: nat)
    requires HoldsOk(s) && forall i | 0 <= i < |items| :: ItemOk(s, items[i])
    ensures forall i | 0 <= i < |ExportRows(items, b)| :: WellFormed(ExportRows(items, b)[i])
    ensures (exists i | 0 <= i < |items| :: items[i].batch == b && items[i].status != ItemVoid) ==>
            ExportRows(items, b) != []
  {
    if items != [] {
      var k := |items| - 1;
      ExportedRowsFit(s, items[..k], b);
      assert HoldOk(s, s.holds[items[k].hold]);
      if i :| 0 <= i < k && items[i].batch == b && items[i].status != ItemVoid {
        assert items[..k][i] == items[i];
      }
    }
  }

  /** The file an export writes confirms the batch it was written for, unless the batch's worth exceeds an int64. */
  lemma ExportedFileConfirms(s: State, b: nat, now: Time)
    requires Inv(s) && b < |s.batches| && s.batches[b].status == Exported
    ensures Confirm(s, b, ExportRows(s.items, b), now).Ok? <==> Fits(Sum(s.items, ItemIn(b)))
  {
    var rows := ExportRows(s.items, b);
    assert forall i | 0 <= i < |s.items| :: ItemOk(s, s.items[i]);
    ExportedRowsFit(s, s.items, b);
    assert BatchOk(s, b);
    forall n: NodeId ensures BatchWorthTo(s, b, n) == Sum(rows, RowFor(n)) {
      ExportedRowSums(s.items, b, n);
    }
    ConfirmAccepts(s, b, rows, now);
  }

  // ---------------------------------------------------------------- the economics report

  lemma {:induction false} EntriesSplit(entries: seq<Entry>)
    requires forall k | 0 <= k < |entries| ::
               entries[k].account.CustomerUsage? || entries[k].account.HostPending? || entries[k].account.Margin?
    ensures Sum(entries, AmountOf())
            == Sum(entries, AmountIn(Customers)) + Sum(entries, AmountIn(PendingHosts))
              + Sum(entries, AmountIn(Margins))
    ensures Sum(entries, AmountIn(Verifications)) == 0
  {
    if entries != [] {
      EntriesSplit(entries[..|entries| - 1]);
    }
  }

  lemma {:induction false} CellsSplit(txns: seq<Txn>, from: Time, until: Time)
    requires forall t | 0 <= t < |txns| :: Balanced(txns[t].entries) && KindOk(txns[t])
    ensures Sum(txns, CellOf(JobAcceptance, Customers, from, until))
            + Sum(txns, CellOf(JobAcceptance, PendingHosts, from, until))
            + Sum(txns, CellOf(JobAcceptance, Margins, from, until)) == 0
    ensures Sum(txns, CellOf(JobAcceptance, Verifications, from, until)) == 0
    ensures Sum(txns, CellOf(FailedAttemptCost, FailedCosts, from, until)) == 0
  {
    if txns != [] {
      var last := txns[|txns| - 1];
      CellsSplit(txns[..|txns| - 1], from, until);
      if last.kind == JobAcceptance {
        EntriesSplit(last.entries);
      }
    }
  }

  /**
   In every reconciled state and for every reporting window, a report comes out exactly when every
   cell fits an int64, and its contribution is what accepted jobs credited to the platform margin
   less what verification cost, wrapped only if that does not fit. Revenue is what acceptances charged
   customers, and host credits what they credited hosts.
   */
  lemma ContributionIsMarginLessVerification(s: State, from: Time, until: Time)
    requires Inv(s)
    ensures var report := Economics(s, from, until);
            var margin, cost := Cell(s, JobAcceptance, Margins, from, until),
              Cell(s, VerificationCost, Verifications, from, until);
            && (report.Ok? <==> CellsFit(s, from, until))
            && (report.Ok? ==>
                  && report.value.revenue == Cell(s, JobAcceptance, Customers, from, until)
                  && report.value.hostCredits == Wrap(0 - Cell(s, JobAcceptance, PendingHosts, from, until))
                  && report.value.verification == cost && report.value.failedAttempts == 0
                  && report.value.contribution == Wrap(0 - margin - cost))
  {
    CellsSplit(s.txns, from, until);
    if CellsFit(s, from, until) {
      assert Fits(Cell(s, VerificationCost, Verifications, from, until));
      ContributionWraps(Cell(s, JobAcceptance, Customers, from, until),
                        Cell(s, JobAcceptance, PendingHosts, from, until),
                        Cell(s, JobAcceptance, Margins, from, until),
                        Cell(s, VerificationCost, Verifications, from, until));
    }
  }

  lemma ContributionWraps(revenue: int, credits: int, margin: int, cost: int)
    requires revenue + credits + margin == 0 && Fits(cost)
    ensures var report := ReportOf(revenue, credits, 0, cost, 0);
            && report.revenue == revenue && report.hostCredits == Wrap(0 - credits)
            && report.verification == cost && report.failedAttempts == 0
            && report.contribution == Wrap(0 - margin - cost)
  {
    WrapSubtract(revenue, -credits);
    WrapAdd(revenue + credits, -cost);
  }
}
