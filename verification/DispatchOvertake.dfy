/**
 Why messages must name attempts of their own job: one that names another job's attempt lets a job
 be retried twice at once.
 */
module DispatchOvertake {
  import opened Sums
  import opened Jobs
  import opened Dispatch
  import opened DispatchAttempts
  import opened DispatchInstances
  import Metering

  /** The node is connected, idle and not excluded. */
  ghost predicate Idle(s: Service, excluded: set<NodeId>, n: NodeId) {
    Usable(s.store.attempts, s.sessions, s.active, excluded, Candidate(n, 0))
  }

  /** A node that was usable stays so while no attempt is offered to it. */
  lemma StaysIdle(s: Service, s': Service, excluded: set<NodeId>, excluded': set<NodeId>, n: NodeId)
    requires Idle(s, excluded, n) && s'.sessions == s.sessions && n !in s'.active && n !in excluded'
    requires forall a | 0 <= a < |s'.store.attempts| && s'.store.attempts[a].node == n ::
               a < |s.store.attempts| && s.store.attempts[a].node == n
                 && (Active(s'.store.attempts[a].status) ==> Active(s.store.attempts[a].status))
    ensures Idle(s', excluded', n)
  {
    assert forall a | 0 <= a < |s'.store.attempts| && s'.store.attempts[a].node == n ::
           !Active(s'.store.attempts[a].status);
  }

  /** The state in which the expired attempt is retried, and what that retry leads to. */
  lemma RetriedFirst(s: Service, j: JobId, a: AttemptId, p: NodeId, now: Time, lease: int)
    requires j in s.runs && s.runs[j].attempts == 1 && j < |s.store.jobs| && a < |s.store.attempts|
             && s.store.attempts[a].job == j
    requires Idle(s, s.runs[j].excluded + {s.store.attempts[a].node}, p)
    ensures var s' := HandleExpired(s, a, OneNode(p, now, lease), now);
            && j in s'.runs && s'.runs[j].excluded == s.runs[j].excluded + {s.store.attempts[a].node}
            && s'.sessions == s.sessions && |s'.store.jobs| == |s.store.jobs|
            && s'.active == (s.active - {s.store.attempts[a].node})[p := ActiveJob(j, |s.store.attempts|)]
            && s'.store.attempts == s.store.attempts
               + [NewAttempt(j, p, Standard, LeaseEnd(OneNode(p, now, lease)), s.runs[j].deadline, now)]
  {
    var n := s.store.attempts[a].node;
    var prepared := PrepareRetry(ClearActive(s, n), j, n);
    assert Idle(prepared, prepared.runs[j].excluded, p);
    Schedules(prepared, j, p, now, lease);
  }

  lemma OfferedSecond(s: Service, j: JobId, q: NodeId, now: Time, lease: int)
    requires j in s.runs && j < |s.store.jobs| && Idle(s, s.runs[j].excluded, q)
    ensures var (s', outcome) := ScheduleInternal(s, j, OneNode(q, now, lease));
            && outcome == Scheduled
            && s'.store.attempts == s.store.attempts
               + [NewAttempt(j, q, Standard, LeaseEnd(OneNode(q, now, lease)), s.runs[j].deadline, now)]
  {
    Schedules(s, j, q, now, lease);
  }

  /** The job's expired attempt is retried inside the retry that a message about another job's attempt set off. */
  lemma ExpiredInside(s: Service, n: NodeId, j: JobId, b: AttemptId, a: AttemptId, p: NodeId, now: Time, lease: int,
                      expired: Service)
    requires MayRetry(s, j) && b < |s.store.attempts| && s.store.attempts[b].job != j
    requires expired == Do(Do(PrepareRetry(ClearActive(s, n), j, n), FailOne(j, b, now)), Expire(now))
    requires a < |s.store.attempts| && ExpiredIds(s.store.attempts, now) == [a]
    ensures expired.store.attempts == ExpireAll(s.store.attempts, now) && |expired.store.jobs| == |s.store.jobs|
    ensures expired.runs == s.runs[j := s.runs[j].(excluded := s.runs[j].excluded + {n})]
    ensures expired.sessions == s.sessions && expired.active == s.active - {n}
    ensures var worlds := [OneNode(p, now, lease)];
            ExpireAndRetry(Do(PrepareRetry(ClearActive(s, n), j, n), FailOne(j, b, now)), now, worlds)
            == HandleExpired(expired, a, OneNode(p, now, lease), now)
  {
    var worlds := [OneNode(p, now, lease)];
    assert [a][..0] == [];
    assert HandleAllExpired(expired, [a][..0], worlds, now) == expired;
    assert WorldAt(worlds, 0) == OneNode(p, now, lease);
  }

  /**
   A run tried once whose attempt a is all that expires, a message about another job's attempt b, and two
   free nodes.
   */
  ghost predicate Overtakable(s: Service, n: NodeId, j: JobId, b: AttemptId, a: AttemptId, p: NodeId, q: NodeId,
                              now: Time)
  {
    && j in s.runs && s.runs[j].attempts == 1 && j < |s.store.jobs|
    && b < |s.store.attempts| && s.store.attempts[b].job != j && b !in s.duplicates
    && a < |s.store.attempts| && s.store.attempts[a].job == j && ExpiredIds(s.store.attempts, now) == [a]
    && p != q && Idle(s, Banned(s, n, j, a), p) && Idle(s, Banned(s, n, j, a), q)
  }

  function Banned(s: Service, n: NodeId, j: JobId, a: AttemptId): set<NodeId>
    requires j in s.runs && a < |s.store.attempts|
  {
    s.runs[j].excluded + {n} + {s.store.attempts[a].node}
  }

  lemma FirstRetry(s: Service, n: NodeId, j: JobId, b: AttemptId, a: AttemptId, p: NodeId, q: NodeId,
                   now: Time, lease: int, expired: Service, handled: Service)
    requires Overtakable(s, n, j, b, a, p, q, now)
    requires expired == Do(Do(PrepareRetry(ClearActive(s, n), j, n), FailOne(j, b, now)), Expire(now))
    requires handled == HandleExpired(expired, a, OneNode(p, now, lease), now)
    ensures RetriedOnce(s, handled, n, j, a, p, q, now)
  {
    ExpiredInside(s, n, j, b, a, p, now, lease, expired);
    StaysIdle(s, expired, Banned(s, n, j, a), Banned(s, n, j, a), p);
    RetriedFirst(expired, j, a, p, now, lease);
  }

  lemma SecondRetry(s: Service, n: NodeId, j: JobId, b: AttemptId, a: AttemptId, p: NodeId, q: NodeId, now: Time,
                    lease: int, handled: Service)
    requires Overtakable(s, n, j, b, a, p, q, now)
    requires handled == ExpireAndRetry(Do(PrepareRetry(ClearActive(s, n), j, n), FailOne(j, b, now)), now,
             [OneNode(p, now, lease)])
    requires j in handled.runs && j < |handled.store.jobs| && Idle(handled, handled.runs[j].excluded, q)
    ensures HandleRefusal(s, n, j, b, true, now, [OneNode(p, now, lease)], OneNode(q, now, lease)).store.attempts
            == handled.store.attempts
              + [NewAttempt(j, q, Standard, LeaseEnd(OneNode(q, now, lease)), handled.runs[j].deadline, now)]
  {
    OfferedSecond(handled, j, q, now, lease);
  }

  /** After the first retry: the job's run with both nodes excluded, one row more, and q still free. */
  ghost predicate RetriedOnce(s: Service, handled: Service, n: NodeId, j: JobId, a: AttemptId, p: NodeId, q: NodeId,
                              now: Time)
    requires j in s.runs && a < |s.store.attempts|
  {
    && j in handled.runs && handled.runs[j].excluded == Banned(s, n, j, a) && |handled.store.jobs| == |s.store.jobs|
    && handled.sessions == s.sessions && q !in handled.active
    && |handled.store.attempts| == |s.store.attempts| + 1
       && handled.store.attempts[..|s.store.attempts|] == ExpireAll(s.store.attempts, now)
    && handled.store.attempts[|s.store.attempts|].job == j
       && handled.store.attempts[|s.store.attempts|].kind == Standard
    && handled.store.attempts[|s.store.attempts|].node == p
  }

  lemma HandledFacts(s: Service, n: NodeId, j: JobId, b: AttemptId, a: AttemptId, p: NodeId, q: NodeId, now: Time,
                     lease: int, handled: Service)
    requires Overtakable(s, n, j, b, a, p, q, now)
    requires handled == ExpireAndRetry(Do(PrepareRetry(ClearActive(s, n), j, n), FailOne(j, b, now)), now,
             [OneNode(p, now, lease)])
    ensures RetriedOnce(s, handled, n, j, a, p, q, now)
  {
    var expired := Do(Do(PrepareRetry(ClearActive(s, n), j, n), FailOne(j, b, now)), Expire(now));
    ExpiredInside(s, n, j, b, a, p, now, lease, expired);
    FirstRetry(s, n, j, b, a, p, q, now, lease, expired, handled);
  }

  lemma StillFree(s: Service, handled: Service, n: NodeId, j: JobId, a: AttemptId, p: NodeId, q: NodeId, now: Time)
    requires j in s.runs && a < |s.store.attempts| && p != q && Idle(s, Banned(s, n, j, a), q)
             && RetriedOnce(s, handled, n, j, a, p, q, now)
    ensures Idle(handled, Banned(s, n, j, a), q)
    ensures forall i | 0 <= i < |s.store.attempts| ::
              handled.store.attempts[i].job == s.store.attempts[i].job
                && handled.store.attempts[i].kind == s.store.attempts[i].kind
  {
    forall i | 0 <= i < |s.store.attempts| ensures handled.store.attempts[i] == ExpireRow(s.store.attempts[i], now) {
      assert handled.store.attempts[i] == handled.store.attempts[..|s.store.attempts|][i];
    }
    StaysIdle(s, handled, Banned(s, n, j, a), Banned(s, n, j, a), q);
  }

  /** The rows keep their jobs and kinds, and two standard attempts of j are added. */
  ghost predicate TwoMore(before: seq<Attempt>, after: seq<Attempt>, j: JobId) {
    && |after| == |before| + 2
    && (forall i | 0 <= i < |before| :: after[i].job == before[i].job && after[i].kind == before[i].kind)
    && (forall i | |before| <= i < |after| :: after[i].job == j && after[i].kind == Standard)
  }

  lemma AddedTwo(before: seq<Attempt>, middle: seq<Attempt>, row: Attempt, after: seq<Attempt>, j: JobId)
    requires |middle| == |before| + 1 && after == middle + [row] && row.job == j && row.kind == Standard
    requires middle[|before|].job == j && middle[|before|].kind == Standard
    requires forall i | 0 <= i < |before| :: middle[i].job == before[i].job && middle[i].kind == before[i].kind
    ensures TwoMore(before, after, j)
  {
  }

  /** Both retries go through: the job gets two attempts more. */
  lemma RetriedTwice(s: Service, n: NodeId, j: JobId, b: AttemptId, a: AttemptId, p: NodeId, q: NodeId, now: Time,
                     lease: int, after: seq<Attempt>)
    requires Overtakable(s, n, j, b, a, p, q, now)
    requires after == HandleRefusal(s, n, j, b, true, now, [OneNode(p, now, lease)],
             OneNode(q, now, lease)).store.attempts
    ensures TwoMore(s.store.attempts, after, j)
  {
    var handled := ExpireAndRetry(Do(PrepareRetry(ClearActive(s, n), j, n), FailOne(j, b, now)), now,
      [OneNode(p, now, lease)]);
    HandledFacts(s, n, j, b, a, p, q, now, lease, handled);
    StillFree(s, handled, n, j, a, p, q, now);
    var row := NewAttempt(j, q, Standard, LeaseEnd(OneNode(q, now, lease)), handled.runs[j].deadline, now);
    SecondRetry(s, n, j, b, a, p, q, now, lease, handled);
    AddedTwo(s.store.attempts, handled.store.attempts, row, after, j);
  }

  // ---------------------------------------------------------------- a history that gets there

  const REQUEST: Metering.Request := Metering.NO_REQUEST

  /** What a synchronous request that finds a free node leaves behind. */
  lemma ChatFacts(s: Service, n: NodeId, lease: int, s': Service)
    requires forall a | 0 <= a < |s.store.attempts| :: !LeaseOver(s.store.attempts[a], 1)
    requires Idle(s, {}, n) && s' == HandleChat(s, 0, REQUEST, 100, 1, [], OneNode(n, 1, lease))
    ensures s'.store.attempts
            == s.store.attempts + [NewAttempt(|s.store.jobs|, n, Standard, LeaseEnd(OneNode(n, 1, lease)), 100, 1)]
    ensures |s'.store.jobs| == |s.store.jobs| + 1 && s'.sessions == s.sessions && s'.duplicates == s.duplicates
    ensures s'.runs == s.runs[|s.store.jobs| := RunState(REQUEST, 100, {}, 1)]
    ensures s'.active == s.active[n := ActiveJob(|s.store.jobs|, |s.store.attempts|)]
  {
    ChatOffers(s, 0, REQUEST, 100, n, 1, lease);
  }

  function FirstChat(): Event {
    Chat(0, REQUEST, 100, 1, [], OneNode(0, 1, 1))
  }

  function SecondChat(): Event {
    Chat(0, REQUEST, 100, 1, [], OneNode(1, 1, 1000))
  }

  /** Node 1, busy with job 1, reports a failure of job 0 but names its own attempt. */
  function WrongFailure(): Event {
    SaysFailed(1, 0, 1, true, 5, [OneNode(2, 5, 1000)], OneNode(3, 5, 1000))
  }

  const CONNECTED: map<NodeId, SessionId> := map[0 := 0, 1 := 0, 2 := 0, 3 := 0]

  lemma Attached() returns (states: seq<Service>, events: seq<Event>)
    ensures IsHistory(states, events) && |events| == 4 && states[4] == IDLE.(sessions := CONNECTED)
  {
    var s1 := IDLE.(sessions := map[0 := 0]);
    var s2 := IDLE.(sessions := map[0 := 0, 1 := 0]);
    var s3 := IDLE.(sessions := map[0 := 0, 1 := 0, 2 := 0]);
    var s4 := IDLE.(sessions := CONNECTED);
    assert Moves(IDLE, Attach(0, 0), s1) && Moves(s1, Attach(1, 0), s2) && Moves(s2, Attach(2, 0), s3)
           && Moves(s3, Attach(3, 0), s4);
    Extended([IDLE], [], Attach(0, 0), s1);
    Extended([IDLE] + [s1], [] + [Attach(0, 0)], Attach(1, 0), s2);
    Extended([IDLE] + [s1] + [s2], [] + [Attach(0, 0)] + [Attach(1, 0)], Attach(2, 0), s3);
    Extended([IDLE] + [s1] + [s2] + [s3], [] + [Attach(0, 0)] + [Attach(1, 0)] + [Attach(2, 0)], Attach(3, 0), s4);
    states := [IDLE] + [s1] + [s2] + [s3] + [s4];
    events := [] + [Attach(0, 0)] + [Attach(1, 0)] + [Attach(2, 0)] + [Attach(3, 0)];
  }

  /** Two jobs in progress on nodes 0 and 1, with nodes 2 and 3 free. */
  ghost predicate TwoInProgress(s: Service) {
    && s.store.attempts == [NewAttempt(0, 0, Standard, 2, 100, 1), NewAttempt(1, 1, Standard, 1001, 100, 1)]
    && |s.store.jobs| == 2 && s.sessions == CONNECTED && s.duplicates == map[]
    && 0 in s.runs && s.runs[0] == RunState(REQUEST, 100, {}, 1)
    && 2 !in s.active && 3 !in s.active
  }

  /** One job in progress on node 0. */
  ghost predicate OneInProgress(s: Service) {
    && s.store.attempts == [NewAttempt(0, 0, Standard, 2, 100, 1)]
    && |s.store.jobs| == 1 && s.sessions == CONNECTED && s.duplicates == map[]
    && s.runs == map[0 := RunState(REQUEST, 100, {}, 1)] && s.active == map[0 := ActiveJob(0, 0)]
  }

  lemma OneChat(s4: Service, s5: Service)
    requires s4.store.attempts == [] && s4.store.jobs == [] && s4.active == map[] && s4.runs == map[]
             && s4.duplicates == map[]
    requires s4.sessions == CONNECTED && s5 == HandleChat(s4, 0, REQUEST, 100, 1, [], OneNode(0, 1, 1))
    ensures OneInProgress(s5)
  {
    ChatFacts(s4, 0, 1, s5);
  }

  lemma AnotherChat(s5: Service, s6: Service)
    requires OneInProgress(s5) && s6 == HandleChat(s5, 0, REQUEST, 100, 1, [], OneNode(1, 1, 1000))
    ensures TwoInProgress(s6)
  {
    assert !Occupied(s5.store.attempts, 1);
    ChatFacts(s5, 1, 1000, s6);
  }

  /** By the time 5 the first one's lease is over. */
  lemma TwoJobs(s: Service)
    requires TwoInProgress(s)
    ensures Overtakable(s, 1, 0, 1, 0, 2, 3, 5)
  {
    OneOverdue(s.store.attempts, 5);
  }

  lemma OneOverdue(rows: seq<Attempt>, now: Time)
    requires |rows| == 2 && LeaseOver(rows[0], now) && !LeaseOver(rows[1], now)
    ensures ExpiredIds(rows, now) == [0]
  {
    assert rows[..1][..0] == [] && rows[..1][0] == rows[0];
    assert ExpiredIds(rows[..1][..0], now) == [];
    assert ExpiredIds(rows[..1], now) == [0];
  }

  lemma ThreeOfJobZero(before: seq<Attempt>, after: seq<Attempt>, store: State)
    requires |before| == 2 && before[0].job == 0 && before[1].job == 1 && before[0].kind == before[1].kind == Standard
    requires TwoMore(before, after, 0) && store.attempts == after
    ensures Standards(store, 0) == 3
  {
    var f := StandardFor(0);
    assert after[..3][..2][..1][..0] == [] && after[..3][..2] == after[..2] && after[..2][..1] == after[..1];
    assert Sum(after[..1], f) == 1;
    assert Sum(after[..2], f) == 1;
    assert Sum(after[..3], f) == 2;
  }

  lemma Overtaken(s6: Service, s7: Service)
    requires TwoInProgress(s6) && s7 == HandleRefusal(s6, 1, 0, 1, true, 5, [OneNode(2, 5, 1000)], OneNode(3, 5, 1000))
    ensures !Names(s6.store, 0, 1) && Standards(s7.store, 0) == 3
  {
    TwoJobs(s6);
    RetriedTwice(s6, 1, 0, 1, 0, 2, 3, 5, 1000, s7.store.attempts);
    ThreeOfJobZero(s6.store.attempts, s7.store.attempts, s7.store);
  }

  /**
   Six events later the seventh, a failure report that names another job's attempt, gives job 0 a third
   standard attempt.
   */
  lemma ThirdAttempt() returns (states: seq<Service>, events: seq<Event>)
    ensures IsHistory(states, events) && |events| == 7 && events[6] == WrongFailure()
    ensures !Names(states[6].store, events[6].job, events[6].attempt)
    ensures Standards(states[7].store, 0) == 3
  {
    states, events := Attached();
    var s4 := states[4];
    var s5 := HandleChat(s4, 0, REQUEST, 100, 1, [], OneNode(0, 1, 1));
    var s6 := HandleChat(s5, 0, REQUEST, 100, 1, [], OneNode(1, 1, 1000));
    var s7 := HandleRefusal(s6, 1, 0, 1, true, 5, [OneNode(2, 5, 1000)], OneNode(3, 5, 1000));
    OneChat(s4, s5);
    AnotherChat(s5, s6);
    Overtaken(s6, s7);
    ChatMoves(s4, FirstChat(), s5);
    ChatMoves(s5, SecondChat(), s6);
    FailureMoves(s6, WrongFailure(), s7);
    Extended(states, events, FirstChat(), s5);
    Extended(states + [s5], events + [FirstChat()], SecondChat(), s6);
    Extended(states + [s5] + [s6], events + [FirstChat()] + [SecondChat()], WrongFailure(), s7);
    states, events := states + [s5] + [s6] + [s7], events + [FirstChat()] + [SecondChat()] + [WrongFailure()];
  }

  lemma ChatMoves(s: Service, e: Event, s': Service)
    requires e.Chat? && s' == HandleChat(s, e.org, e.request, e.deadline, e.now, e.worlds, e.world)
    ensures Moves(s, e, s')
  {
  }

  lemma FailureMoves(s: Service, e: Event, s': Service)
    requires e.SaysFailed? && s' == HandleRefusal(s, e.node, e.job, e.attempt, e.retryable, e.now, e.worlds, e.world)
    ensures Moves(s, e, s')
  {
  }
}
