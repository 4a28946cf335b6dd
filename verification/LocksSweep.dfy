/**
 The stale-session sweep among the other calls. It locks session rows first and node rows after
 them, against the order the others keep; this says exactly which mixes can get stuck.
 */
module LocksSweep {
  import opened Locks

  /** The rows of the stale sessions, then the rows of their nodes, each in whatever order the database takes them. */
  function SweepProgram(sessions: seq<nat>, nodes: seq<nat>): (p: seq<Row>)
    ensures |p| == |sessions| + |nodes|
    ensures forall i | 0 <= i < |p| ::
            p[i] == if i < |sessions| then Session(sessions[i]) else Node(nodes[i - |sessions|])
  {
    seq(|sessions| + |nodes|, i requires 0 <= i < |sessions| + |nodes| =>
      if i < |sessions| then Session(sessions[i]) else Node(nodes[i - |sessions|]))
  }

  /** Any number of heartbeat, close and drain calls, and one sweep, the last transaction. */
  ghost predicate Mix(s: State, calls: seq<Call>, sessions: seq<nat>, nodes: seq<nat>) {
    && |s| == |calls| + 1 && WellFormed(s)
    && (forall i | 0 <= i < |calls| :: s[i].program == Program(calls[i]))
    && s[|calls|].program == SweepProgram(sessions, nodes)
  }

  /** The call locks a node and a session that the sweep locks too. */
  predicate Crosses(call: Call, sessions: seq<nat>, nodes: seq<nat>) {
    call.node.Some? && call.session.Some? && call.node.value in nodes && call.session.value in sessions
  }

  predicate SomeCrosses(calls: seq<Call>, sessions: seq<nat>, nodes: seq<nat>) {
    exists i | 0 <= i < |calls| :: Crosses(calls[i], sessions, nodes)
  }

  /** Each of the two waits for a row the other holds. */
  ghost predicate Doomed(s: State, i: nat, j: nat)
    requires WellFormed(s)
  {
    && i < |s| && j < |s| && i != j && Waiting(s[i]) && Waiting(s[j])
    && Holds(s[j], s[i].program[s[i].held]) && Holds(s[i], s[j].program[s[j].held])
  }

  /** Two that wait for each other do so whatever the rest does: neither ever commits. */
  lemma DoomedForever(s: State, i: nat, j: nat, k: nat)
    requires WellFormed(s) && Doomed(s, i, j) && CanStep(s, k)
    ensures Doomed(Step(s, k), i, j) && !Finished(Step(s, k))
  {
  }

  lemma KeepsMix(s: State, calls: seq<Call>, sessions: seq<nat>, nodes: seq<nat>, k: nat)
    requires Mix(s, calls, sessions, nodes) && CanStep(s, k)
    ensures Mix(Step(s, k), calls, sessions, nodes)
  {
  }

  // ---------------------------------------------------------------- no crossing, no trouble

  /** A call that holds a session holds everything it wants. */
  lemma HasAll(call: Call, t: Txn, r: Row)
    requires t.program == Program(call) && t.held <= |t.program| && Holds(t, r) && r.Session?
    ensures !Waiting(t)
  {
    var k :| 0 <= k < t.held && t.program[..t.held][k] == r;
    assert t.program[k] == r;
  }

  /** A call that holds a row and waits holds its node and waits for its session. */
  lemma HoldsNodeOnly(call: Call, t: Txn, r: Row)
    requires t.program == Program(call) && t.held <= |t.program| && Holds(t, r) && Waiting(t)
    ensures call.node.Some? && r == Node(call.node.value) && call.session.Some?
            && t.program[t.held] == Session(call.session.value)
  {
    var k :| 0 <= k < t.held && t.program[..t.held][k] == r;
    assert t.program[k] == r;
  }

  lemma SweepRow(t: Txn, sessions: seq<nat>, nodes: seq<nat>, r: Row)
    requires t.program == SweepProgram(sessions, nodes) && t.held <= |t.program|
             && (Holds(t, r) || (Waiting(t) && t.program[t.held] == r))
    ensures if r.Session? then r.id in sessions else r.id in nodes
  {
    if Holds(t, r) {
      var k :| 0 <= k < t.held && t.program[..t.held][k] == r;
      assert t.program[k] == r;
    }
  }

  /** Only a call that crosses the sweep can wait for it and be waited for. */
  lemma DoomedMeansCrossing(s: State, calls: seq<Call>, sessions: seq<nat>, nodes: seq<nat>, i: nat, j: nat)
    requires Mix(s, calls, sessions, nodes) && Doomed(s, i, j)
    ensures SomeCrosses(calls, sessions, nodes)
  {
    if i < |calls| && j < |calls| {
      assert false;
    } else if i < |calls| {
      CrossingPair(s, calls, sessions, nodes, i);
    } else {
      CrossingPair(s, calls, sessions, nodes, j);
    }
  }

  lemma CrossingPair(s: State, calls: seq<Call>, sessions: seq<nat>, nodes: seq<nat>, i: nat)
    requires Mix(s, calls, sessions, nodes) && i < |calls| && Doomed(s, i, |calls|)
    ensures Crosses(calls[i], sessions, nodes)
  {
    var sweep := s[|calls|];
    HoldsNodeOnly(calls[i], s[i], sweep.program[sweep.held]);
    SweepRow(sweep, sessions, nodes, s[i].program[s[i].held]);
    SweepRow(sweep, sessions, nodes, sweep.program[sweep.held]);
  }

  /** A call that waits for its session, where no call crosses the sweep and the sweep waits for a node it holds. */
  lemma SessionWaiter(s: State, calls: seq<Call>, sessions: seq<nat>, nodes: seq<nat>, i: nat) returns (j: nat)
    requires Mix(s, calls, sessions, nodes) && !SomeCrosses(calls, sessions, nodes)
    requires i < |calls| && Waiting(s[i]) && s[i].program[s[i].held].Session? && !Free(s, i)
    ensures CanStep(s, j) || (j == |calls| && Holds(s[j], s[i].program[s[i].held]))
  {
    j :| 0 <= j < |s| && j != i && Holds(s[j], s[i].program[s[i].held]);
    if j < |calls| {
      HasAll(calls[j], s[j], s[i].program[s[i].held]);
    }
  }

  /** The sweep, if not yet committed, can step or is held up by a call that can. */
  lemma SweepMoves(s: State, calls: seq<Call>, sessions: seq<nat>, nodes: seq<nat>) returns (j: nat)
    requires Mix(s, calls, sessions, nodes) && !SomeCrosses(calls, sessions, nodes) && !s[|calls|].committed
    ensures CanStep(s, j)
  {
    var m := |calls|;
    if !Waiting(s[m]) || Free(s, m) {
      j := m;
    } else {
      var h :| 0 <= h < |s| && h != m && Holds(s[h], s[m].program[s[m].held]);
      if !Waiting(s[h]) || Free(s, h) {
        j := h;
      } else {
        HoldsNodeOnly(calls[h], s[h], s[m].program[s[m].held]);
        j := SessionWaiter(s, calls, sessions, nodes, h);
        if !CanStep(s, j) {
          assert Doomed(s, h, m);
          CrossingPair(s, calls, sessions, nodes, h);
        }
      }
    }
  }

  /** Without a crossing call some transaction can always step. */
  lemma NoCrossingNoDeadlock(s: State, calls: seq<Call>, sessions: seq<nat>, nodes: seq<nat>)
    requires Mix(s, calls, sessions, nodes) && !SomeCrosses(calls, sessions, nodes) && !Finished(s)
    ensures exists j: nat :: CanStep(s, j)
  {
    var j: nat;
    if !s[|calls|].committed {
      j := SweepMoves(s, calls, sessions, nodes);
    } else {
      var i :| 0 <= i < |s| && !s[i].committed;
      j := CallMoves(s, calls, sessions, nodes, i);
    }
  }

  /** With the sweep out of the way the calls are among themselves. */
  lemma CallMoves(s: State, calls: seq<Call>, sessions: seq<nat>, nodes: seq<nat>, i: nat) returns (j: nat)
    requires Mix(s, calls, sessions, nodes) && s[|calls|].committed && i < |calls| && !s[i].committed
    ensures CanStep(s, j)
  {
    if !Waiting(s[i]) || Free(s, i) {
      j := i;
    } else {
      var h :| 0 <= h < |s| && h != i && Holds(s[h], s[i].program[s[i].held]);
      if !Waiting(s[h]) || Free(s, h) {
        j := h;
      } else {
        HoldsNodeOnly(calls[h], s[h], s[i].program[s[i].held]);
        j :| 0 <= j < |s| && j != h && Holds(s[j], s[h].program[s[h].held]);
        HasAll(calls[j], s[j], s[h].program[s[h].held]);
      }
    }
  }

  lemma {:induction false} MixInEverySchedule(states: seq<State>, picks: seq<nat>, calls: seq<Call>, sessions: seq<nat>,
                                              nodes: seq<nat>, k: nat)
    requires IsSchedule(states, picks) && k < |states| && Mix(states[0], calls, sessions, nodes)
    ensures Mix(states[k], calls, sessions, nodes) && Remaining(states[k]) == Remaining(states[0]) - k
  {
    if k > 0 {
      MixInEverySchedule(states, picks, calls, sessions, nodes, k - 1);
      assert StepAt(states, picks, k - 1);
      KeepsMix(states[k - 1], calls, sessions, nodes, picks[k - 1]);
      StepCounts(states[k - 1], picks[k - 1]);
    }
  }

  /** Calls none of which crosses the sweep finish with it, however they are scheduled. */
  lemma SweepFinishes(states: seq<State>, picks: seq<nat>, calls: seq<Call>, sessions: seq<nat>, nodes: seq<nat>)
    requires IsSchedule(states, picks) && Mix(states[0], calls, sessions, nodes) && !SomeCrosses(calls, sessions, nodes)
    ensures |picks| <= Remaining(states[0])
    ensures |picks| == Remaining(states[0]) <==> Finished(states[|picks|])
    ensures WellFormed(states[|picks|])
    ensures |picks| < Remaining(states[0]) ==> exists j: nat :: CanStep(states[|picks|], j)
  {
    MixInEverySchedule(states, picks, calls, sessions, nodes, |picks|);
    RemainingIsWork(states[|picks|]);
    if !Finished(states[|picks|]) {
      NoCrossingNoDeadlock(states[|picks|], calls, sessions, nodes);
    }
  }

  // ---------------------------------------------------------------- a crossing call can get stuck with it

  /** Where everyone is before anything is locked. */
  ghost predicate Untouched(s: State) {
    forall i | 0 <= i < |s| :: s[i].held == 0 && !s[i].committed
  }

  /** The sweep, last among the transactions, with its first rows locked. */
  function SweepAt(s: State, held: nat): (t: State)
    requires |s| > 0
    ensures |t| == |s|
  {
    s[|s| - 1 := s[|s| - 1].(held := held)]
  }

  lemma FirstIndex(nodes: seq<nat>, n: nat) returns (k: nat)
    requires n in nodes
    ensures k < |nodes| && nodes[k] == n && forall i | 0 <= i < k :: nodes[i] != n
  {
    k := 0;
    while nodes[k] != n
      invariant k < |nodes| && n in nodes[k..]
      invariant forall i | 0 <= i < k :: nodes[i] != n
      decreases |nodes| - k
    {
      k := k + 1;
    }
  }

  /** With nothing else locked the sweep gets its rows one after another. */
  lemma SweepAlone(s: State, k: nat)
    requires |s| > 0 && WellFormed(s) && Untouched(s) && k < |s[|s| - 1].program|
    ensures CanStep(SweepAt(s, k), |s| - 1) && Step(SweepAt(s, k), |s| - 1) == SweepAt(s, k + 1)
  {
  }

  /** The call takes its node while the sweep has not come to it. */
  lemma CallTakesNode(s: State, calls: seq<Call>, sessions: seq<nat>, nodes: seq<nat>, c: nat, k: nat)
    requires Mix(s, calls, sessions, nodes) && Untouched(s) && c < |calls| && Crosses(calls[c], sessions, nodes)
    requires k < |nodes| && nodes[k] == calls[c].node.value && forall i | 0 <= i < k :: nodes[i] != nodes[k]
    ensures var t := SweepAt(s, |sessions| + k); WellFormed(t) && CanStep(t, c) && Doomed(Step(t, c), c, |calls|)
  {
    var t := SweepAt(s, |sessions| + k);
    var row := Node(calls[c].node.value);
    var sweep := t[|calls|];
    forall i | 0 <= i < sweep.held ensures sweep.program[i] != row {
    }
    var t' := Step(t, c);
    var i :| 0 <= i < |sessions| && sessions[i] == calls[c].session.value;
    assert sweep.program[..sweep.held][i] == Session(sessions[i]);
    assert t'[c].program[..1][0] == row;
  }

  /** A schedule that locks the sweep's rows up to the node, then the call's node: each waits for the other. */
  lemma CrossingDooms(s: State, calls: seq<Call>, sessions: seq<nat>, nodes: seq<nat>, c: nat)
    returns (states: seq<State>, picks: seq<nat>)
    requires Mix(s, calls, sessions, nodes) && Untouched(s) && c < |calls| && Crosses(calls[c], sessions, nodes)
    ensures IsSchedule(states, picks) && states[0] == s
    ensures WellFormed(states[|picks|]) && Doomed(states[|picks|], c, |calls|)
  {
    var k := FirstIndex(nodes, calls[c].node.value);
    var m := |sessions| + k;
    forall i | 0 <= i < m ensures CanStep(SweepAt(s, i), |calls|) && Step(SweepAt(s, i), |calls|) == SweepAt(s, i + 1) {
      SweepAlone(s, i);
    }
    CallTakesNode(s, calls, sessions, nodes, c, k);
    var last := Step(SweepAt(s, m), c);
    states := seq(m + 2, i requires 0 <= i < m + 2 => if i <= m then SweepAt(s, i) else last);
    picks := seq(m + 1, i requires 0 <= i < m + 1 => if i < m then |calls| else c);
    forall i | 0 <= i < |picks| ensures StepAt(states, picks, i) {
    }
    assert SweepAt(s, 0) == s;
  }

  /** Some schedule from s ends with two transactions that wait for each other. */
  ghost predicate CanGetStuck(s: State) {
    exists states: seq<State>, picks: seq<nat>, i: nat, j: nat ::
      IsSchedule(states, picks) && states[0] == s && WellFormed(states[|picks|]) && Doomed(states[|picks|], i, j)
  }

  /** A mix with the sweep can get stuck exactly when some call locks a node and a session the sweep locks too. */
  lemma SweepGetsStuckIff(s: State, calls: seq<Call>, sessions: seq<nat>, nodes: seq<nat>)
    requires Mix(s, calls, sessions, nodes) && Untouched(s)
    ensures CanGetStuck(s) <==> SomeCrosses(calls, sessions, nodes)
  {
    if CanGetStuck(s) {
      var states: seq<State>, picks: seq<nat>, i: nat, j: nat :|
        IsSchedule(states, picks) && states[0] == s && WellFormed(states[|picks|]) && Doomed(states[|picks|], i, j);
      MixInEverySchedule(states, picks, calls, sessions, nodes, |picks|);
      DoomedMeansCrossing(states[|picks|], calls, sessions, nodes, i, j);
    }
    if SomeCrosses(calls, sessions, nodes) {
      var c: nat :| c < |calls| && Crosses(calls[c], sessions, nodes);
      var states, picks := CrossingDooms(s, calls, sessions, nodes, c);
    }
  }
}
