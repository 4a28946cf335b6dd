/**
 Row locks of the transactions that touch a node and its session. A transaction locks its rows one
 at a time, waits while another holds the next one, and lets go of all of them when it commits.
 */
module Locks {
  import opened Options
  import opened Sums

  datatype Row = Node(id: nat) | Session(id: nat)

  /** The convention: a nodes row before a node_sessions row. */
  function Rank(r: Row): nat {
    if r.Node? then 0 else 1
  }

  predicate Ordered(program: seq<Row>) {
    forall i, j | 0 <= i < j < |program| :: Rank(program[i]) < Rank(program[j])
  }

  /** What the modelled calls lock, in order; a row that is not there is not locked. */
  datatype Call =
    | RecordHeartbeat(node: Option<nat>, session: Option<nat>)
    | CloseSession(node: Option<nat>, session: Option<nat>)
    | DrainNode(node: Option<nat>, session: Option<nat>)

  function Program(call: Call): (p: seq<Row>)
    ensures Ordered(p)
  {
    (if call.node.Some? then [Node(call.node.value)] else [])
    + (if call.session.Some? then [Session(call.session.value)] else [])
  }

  datatype Txn = Txn(program: seq<Row>, held: nat, committed: bool)

  type State = seq<Txn>

  predicate WellFormed(s: State) {
    forall i | 0 <= i < |s| :: s[i].held <= |s[i].program|
  }

  predicate Holds(t: Txn, r: Row)
    requires t.held <= |t.program|
  {
    !t.committed && r in t.program[..t.held]
  }

  predicate Waiting(t: Txn) {
    !t.committed && t.held < |t.program|
  }

  predicate Free(s: State, i: nat)
    requires WellFormed(s) && i < |s| && Waiting(s[i])
  {
    forall j | 0 <= j < |s| && j != i :: !Holds(s[j], s[i].program[s[i].held])
  }

  predicate CanStep(s: State, i: nat)
    requires WellFormed(s)
  {
    i < |s| && !s[i].committed && (Waiting(s[i]) ==> Free(s, i))
  }

  /** Take the next lock or, holding all of them, commit. */
  function Step(s: State, i: nat): (s': State)
    requires WellFormed(s) && CanStep(s, i)
    ensures WellFormed(s')
  {
    s[i := if Waiting(s[i]) then s[i].(held := s[i].held + 1) else s[i].(committed := true)]
  }

  ghost predicate IsSchedule(states: seq<State>, picks: seq<nat>) {
    && |states| == |picks| + 1
    && (forall i | 0 <= i < |states[0]| :: states[0][i].held == 0 && !states[0][i].committed)
    && forall k: nat | k < |picks| :: StepAt(states, picks, k)
  }

  ghost predicate StepAt(states: seq<State>, picks: seq<nat>, k: nat)
    requires |states| == |picks| + 1 && k < |picks|
  {
    WellFormed(states[k]) && CanStep(states[k], picks[k]) && states[k + 1] == Step(states[k], picks[k])
  }

  // ---------------------------------------------------------------- deadlock freedom

  predicate AllOrdered(s: State) {
    forall i | 0 <= i < |s| :: Ordered(s[i].program)
  }

  predicate Finished(s: State) {
    forall i | 0 <= i < |s| :: s[i].committed
  }

  /** Whoever holds what i waits for waits, if at all, for a row of higher rank. */
  lemma WaitsClimb(s: State, i: nat, j: nat)
    requires WellFormed(s) && AllOrdered(s) && i < |s| && j < |s| && Waiting(s[i]) && Waiting(s[j])
    requires Holds(s[j], s[i].program[s[i].held])
    ensures Rank(s[i].program[s[i].held]) < Rank(s[j].program[s[j].held])
  {
    var r := s[i].program[s[i].held];
    var k :| 0 <= k < s[j].held && s[j].program[..s[j].held][k] == r;
    assert s[j].program[k] == r && Ordered(s[j].program);
  }

  /** Follow the waits from i: ranks climb and are at most one, so some transaction on the way can step. */
  lemma {:induction false} FollowWaits(s: State, i: nat) returns (j: nat)
    requires WellFormed(s) && AllOrdered(s) && i < |s| && !s[i].committed
    ensures CanStep(s, j)
    decreases if Waiting(s[i]) then 2 - Rank(s[i].program[s[i].held]) else 0
  {
    if !Waiting(s[i]) || Free(s, i) {
      j := i;
    } else {
      var h :| 0 <= h < |s| && h != i && Holds(s[h], s[i].program[s[i].held]);
      if Waiting(s[h]) {
        WaitsClimb(s, i, h);
      }
      j := FollowWaits(s, h);
    }
  }

  /** With unfinished transactions left, some transaction can step, in every lock state there can be. */
  lemma NoDeadlock(s: State)
    requires WellFormed(s) && AllOrdered(s) && !Finished(s)
    ensures exists j: nat :: CanStep(s, j)
  {
    var i :| 0 <= i < |s| && !s[i].committed;
    var j := FollowWaits(s, i);
  }

  // ---------------------------------------------------------------- every schedule finishes

  ghost function StepsLeft(): Txn -> int {
    (t: Txn) => if t.committed then 0 else |t.program| - t.held + 1
  }

  ghost function Remaining(s: State): int {
    Sum(s, StepsLeft())
  }

  lemma StepCounts(s: State, i: nat)
    requires WellFormed(s) && CanStep(s, i)
    ensures Remaining(Step(s, i)) == Remaining(s) - 1
  {
    SumUpdate(s, i, Step(s, i)[i], StepsLeft());
  }

  lemma {:induction false} StaysInOrder(states: seq<State>, picks: seq<nat>, k: nat)
    requires IsSchedule(states, picks) && k < |states| && AllOrdered(states[0])
    ensures WellFormed(states[k]) && AllOrdered(states[k]) && |states[k]| == |states[0]|
    ensures Remaining(states[k]) == Remaining(states[0]) - k
  {
    if k > 0 {
      StaysInOrder(states, picks, k - 1);
      assert StepAt(states, picks, k - 1);
      StepCounts(states[k - 1], picks[k - 1]);
    }
  }

  lemma RemainingIsWork(s: State)
    requires WellFormed(s)
    ensures Remaining(s) >= 0 && (Remaining(s) == 0 <==> Finished(s))
  {
    SumNonNegative(s, StepsLeft());
    if Finished(s) {
      SumZero(s, StepsLeft());
    } else {
      var i :| 0 <= i < |s| && !s[i].committed;
      SumAtLeast(s, StepsLeft(), i);
    }
  }

  /**
   Any number of transactions that keep the order: however they are scheduled, no schedule is longer
   than the work there is, one that has done all of it has committed everybody, and a shorter one
   can always go on.
   */
  lemma EveryScheduleFinishes(states: seq<State>, picks: seq<nat>)
    requires IsSchedule(states, picks) && AllOrdered(states[0])
    ensures |picks| <= Remaining(states[0])
    ensures |picks| == Remaining(states[0]) <==> Finished(states[|picks|])
    ensures WellFormed(states[|picks|])
    ensures |picks| < Remaining(states[0]) ==> exists j: nat :: CanStep(states[|picks|], j)
  {
    StaysInOrder(states, picks, |picks|);
    RemainingIsWork(states[|picks|]);
    if !Finished(states[|picks|]) {
      NoDeadlock(states[|picks|]);
    }
  }

  /** The heartbeat, close and drain calls, in any number, keep the order. */
  lemma CallsFinish(calls: seq<Call>, states: seq<State>, picks: seq<nat>)
    requires IsSchedule(states, picks)
    requires |states[0]| == |calls| && forall i | 0 <= i < |calls| :: states[0][i] == Txn(Program(calls[i]), 0, false)
    ensures |picks| <= Remaining(states[0]) <= 3 * |calls|
    ensures |picks| == Remaining(states[0]) <==> Finished(states[|picks|])
    ensures WellFormed(states[|picks|])
    ensures |picks| < Remaining(states[0]) ==> exists j: nat :: CanStep(states[|picks|], j)
  {
    EveryScheduleFinishes(states, picks);
    AtMostThreeEach(states[0]);
  }

  lemma {:induction false} AtMostThreeEach(s: State)
    requires forall i | 0 <= i < |s| :: |s[i].program| <= 2
    ensures Remaining(s) <= 3 * |s|
  {
    if s != [] {
      AtMostThreeEach(s[..|s| - 1]);
    }
  }

  // ---------------------------------------------------------------- locks exclude

  ghost predicate Exclusive(s: State)
    requires WellFormed(s)
  {
    forall i, j, r: Row | 0 <= i < |s| && 0 <= j < |s| && i != j && Holds(s[i], r) :: !Holds(s[j], r)
  }

  lemma HeldAfter(s: State, i: nat, k: nat, r: Row)
    requires WellFormed(s) && CanStep(s, i) && k < |s| && Holds(Step(s, i)[k], r)
    ensures Holds(s[k], r) || (k == i && Waiting(s[i]) && r == s[i].program[s[i].held])
  {
    if k == i {
      var n :| 0 <= n < Step(s, i)[i].held && s[i].program[..Step(s, i)[i].held][n] == r;
      if n < s[i].held {
        assert s[i].program[..s[i].held][n] == r;
      }
    }
  }

  lemma StepKeepsExclusive(s: State, i: nat)
    requires WellFormed(s) && Exclusive(s) && CanStep(s, i)
    ensures Exclusive(Step(s, i))
  {
    var s' := Step(s, i);
    forall a, b, r: Row | 0 <= a < |s'| && 0 <= b < |s'| && a != b && Holds(s'[a], r) ensures !Holds(s'[b], r) {
      HeldAfter(s, i, a, r);
      if Holds(s'[b], r) {
        HeldAfter(s, i, b, r);
      }
    }
  }

  /** In every schedule no row is locked by two transactions. */
  lemma {:induction false} LocksExclude(states: seq<State>, picks: seq<nat>, k: nat)
    requires IsSchedule(states, picks) && k < |states|
    ensures WellFormed(states[k]) && Exclusive(states[k])
  {
    if k > 0 {
      LocksExclude(states, picks, k - 1);
      assert StepAt(states, picks, k - 1);
      StepKeepsExclusive(states[k - 1], picks[k - 1]);
    }
  }

  /** The order is what does it: one transaction that locks the session first can end in a deadlock. */
  lemma OppositeOrderDeadlocks(n: nat, session: nat) returns (states: seq<State>, picks: seq<nat>)
    ensures IsSchedule(states, picks) && |picks| == 2
    ensures states[0] == [Txn([Node(n), Session(session)], 0, false), Txn([Session(session), Node(n)], 0, false)]
    ensures !Finished(states[2]) && WellFormed(states[2]) && forall j: nat :: !CanStep(states[2], j)
  {
    var forward, backward := [Node(n), Session(session)], [Session(session), Node(n)];
    var s0 := [Txn(forward, 0, false), Txn(backward, 0, false)];
    var s1 := [Txn(forward, 1, false), Txn(backward, 0, false)];
    var s2 := [Txn(forward, 1, false), Txn(backward, 1, false)];
    states, picks := [s0, s1, s2], [0, 1];
    assert CanStep(s0, 0) && Step(s0, 0) == s1;
    assert CanStep(s1, 1) && Step(s1, 1) == s2;
    assert StepAt(states, picks, 0) && StepAt(states, picks, 1);
    assert Holds(s2[0], Node(n)) && Holds(s2[1], Session(session)) by {
      assert s2[0].program[..1][0] == Node(n) && s2[1].program[..1][0] == Session(session);
    }
    assert !Free(s2, 0) && !Free(s2, 1);
  }
}
