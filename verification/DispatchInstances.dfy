/** Histories, from an idle service on, that show where the service's bounds end. */
module DispatchInstances {
  import opened Options
  import opened Charges
  import opened Jobs
  import opened Dispatch
  import Ledger
  import opened JobsBilling
  import Metering

  lemma NothingExpires(s: Service, now: Time)
    requires forall a | 0 <= a < |s.store.attempts| :: !LeaseOver(s.store.attempts[a], now)
    ensures Do(s, Expire(now)) == s && ExpiredIds(s.store.attempts, now) == []
  {
    assert ExpireAll(s.store.attempts, now) == s.store.attempts;
    NoIds(s.store.attempts, now);
  }

  lemma {:induction false} NoIds(attempts: seq<Attempt>, now: Time)
    requires forall a | 0 <= a < |attempts| :: !LeaseOver(attempts[a], now)
    ensures ExpiredIds(attempts, now) == []
  {
    if attempts != [] {
      NoIds(attempts[..|attempts| - 1], now);
    }
  }

  /** A world in which one node is a candidate and offers are delivered. */
  function OneNode(n: NodeId, now: Time, lease: int): World {
    World([Candidate(n, 0)], 0, true, now, now, lease, 0)
  }

  lemma OnlyUsable(s: Service, excluded: set<NodeId>, n: NodeId, now: Time, lease: int)
    requires Usable(s.store.attempts, s.sessions, s.active, excluded, Candidate(n, 0))
    ensures Choose(Filter(s.store.attempts, s.sessions, s.active, excluded, OneNode(n, now, lease).candidates), 0)
            == Some(Candidate(n, 0))
  {
    var c := OneNode(n, now, lease).candidates;
    assert c[..0] == [] && c[0] == Candidate(n, 0);
    assert Filter(s.store.attempts, s.sessions, s.active, excluded, c[..0]) == [];
  }

  lemma Schedules(s: Service, j: JobId, n: NodeId, now: Time, lease: int)
    requires j in s.runs && Usable(s.store.attempts, s.sessions, s.active, s.runs[j].excluded, Candidate(n, 0))
    ensures ScheduleInternal(s, j, OneNode(n, now, lease)) == OfferTo(s, j, n, OneNode(n, now, lease))
  {
    OnlyUsable(s, s.runs[j].excluded, n, now, lease);
  }

  /** A synchronous request that finds one free node. */
  lemma ChatOffers(s: Service, org: OrgId, request: Metering.Request, deadline: Time, n: NodeId, now: Time, lease: int)
    requires forall a | 0 <= a < |s.store.attempts| :: !LeaseOver(s.store.attempts[a], now)
    requires Usable(s.store.attempts, s.sessions, s.active, {}, Candidate(n, 0))
    ensures HandleChat(s, org, request, deadline, now, [], OneNode(n, now, lease))
            == OfferTo(Registered(s, org, request, deadline), |s.store.jobs|, n, OneNode(n, now, lease)).0
  {
    var registered, j := Registered(s, org, request, deadline), |s.store.jobs|;
    NothingExpires(registered, now);
    assert ExpireAndRetry(registered, now, []) == registered;
    Schedules(registered, j, n, now, lease);
  }

  // ---------------------------------------------------------------- a completion whose run is gone

  const SMALL: Metering.Request := Metering.Request([Metering.Message("user", "hi")], 10)

  /** 2064 completion tokens: far beyond a request for ten, just within the bound of an empty request. */
  function LongAnswer(): Metering.Payload {
    Metering.Payload(Some(Metering.Message("assistant", "ok")), 1, 2064, 2065, 0)
  }

  lemma LongAnswerIsPlausible()
    ensures Metering.Plausible(Metering.NO_REQUEST, LongAnswer()) && !Metering.Plausible(SMALL, LongAnswer())
  {
    assert LongAnswer().message.value.content[0] == 'o';
  }

  function AfterChat(): Service {
    var row := NewAttempt(0, 0, Standard, 1 + DEFAULT_LEASE, 100, 1);
    Service(State([Job(0, SMALL, Leased)], [row], [], Ledger.EMPTY), map[0 := 0], map[0 := ActiveJob(0, 0)],
            map[0 := RunState(SMALL, 100, {}, 1)], map[])
  }

  function AfterTimeout(): Service {
    var row := NewAttempt(0, 0, Standard, 1 + DEFAULT_LEASE, 100, 1).(status := Accepted, acceptedAt := Some(2));
    Service(State([Job(0, SMALL, Broken)], [row], [], Ledger.EMPTY), map[0 := 0], map[0 := ActiveJob(0, 0)], map[],
      map[])
  }

  lemma ChatReaches()
    ensures var s1 := IDLE.(sessions := map[0 := 0]);
            HandleChat(s1, 0, SMALL, 100, 1, [], OneNode(0, 1, 0)) == AfterChat()
  {
    var s1 := IDLE.(sessions := map[0 := 0]);
    ChatOffers(s1, 0, SMALL, 100, 0, 1, 0);
    var registered := Registered(s1, 0, SMALL, 100);
    assert registered.store.jobs == [Job(0, SMALL, Queued)];
    assert [] + [NewAttempt(0, 0, Standard, 1 + DEFAULT_LEASE, 100, 1)] == AfterChat().store.attempts;
  }

  lemma TimeoutReaches(s3: Service)
    requires s3 == Do(AfterChat(), Accept(0, 0, 2))
    ensures Do(RemoveRun(s3, 0), FailWhole(0, None, 3)) == AfterTimeout()
  {
    assert s3.store.attempts == AfterTimeout().store.attempts;
    assert s3.store.jobs == [Job(0, SMALL, Started)];
    assert s3.store.jobs[0 := Job(0, SMALL, Broken)] == AfterTimeout().store.jobs;
    assert s3.runs - {0} == map[];
  }

  const PRICES: Prices := Prices(0, 0, 1_000_000)

  lemma LongAnswerCredit()
    ensures HostCredit(Metering.UsageOf(LongAnswer()), PRICES) == 2064 && StorableUsage(Metering.UsageOf(LongAnswer()))
  {
  }

  /** A history goes on with any event that can happen in its last state. */
  lemma Extended(states: seq<Service>, events: seq<Event>, e: Event, s': Service)
    requires IsHistory(states, events) && Moves(states[|events|], e, s')
    ensures IsHistory(states + [s'], events + [e])
  {
    var states', events' := states + [s'], events + [e];
    forall k: nat | k < |events'| ensures EventAt(states', events', k) {
      if k < |events| {
        assert EventAt(states, events, k);
      }
    }
  }

  /** A plausible completion without a run that is billed as the first of all. */
  lemma LateBill(s: Service, n: NodeId, r: Report, now: Time, prices: Prices, s': Service)
    requires s.runs == map[] && s.duplicates == map[] && Metering.Plausible(Metering.NO_REQUEST, r.payload)
    requires |s.store.attempts| == 1 && r.attempt == 0 && s.store.attempts[0].job == r.job < |s.store.jobs|
    requires s.store.attempts[0].status == Accepted && AcceptedInTime(s.store.attempts[0])
             && now <= s.store.attempts[0].deadlineAt
    requires s.store.results == [] && s.store.ledger.txns == [] && s.store.ledger.holds == []
    requires StorableUsage(Metering.UsageOf(r.payload)) && HostCredit(Metering.UsageOf(r.payload), prices) >= 0
    requires s' == HandleCompletion(s, n, r, Findings(true, false), now, 0, Some(prices), NOBODY)
    ensures |s'.store.ledger.holds| == 1 && s'.store.ledger.holds[0].job == r.job
    ensures s'.store.ledger.holds[0].amount == HostCredit(Metering.UsageOf(r.payload), prices)
    ensures r.job < |s'.store.jobs| && s'.store.jobs[r.job].request == s.store.jobs[r.job].request
  {
    FirstBill(s.store, CompletionOf(r), now, 0, prices);
    CompletionEffects(s.store, CompletionOf(r), now, 0, prices);
  }

  /** A client asks for ten tokens and stops waiting; the node's answer comes after that. */
  function LateEvents(answer: Metering.Payload, prices: Prices): seq<Event> {
    [Attach(0, 0), Chat(0, SMALL, 100, 1, [], OneNode(0, 1, 0)), SaysAccepted(0, 0, 0, 2), WaitTimeout(0, 3),
     SaysCompleted(0, Report(0, 0, answer), Findings(true, false), 4, 0, Some(prices), NOBODY)]
  }

  lemma FirstMoves(answer: Metering.Payload, prices: Prices, s1: Service)
    requires s1 == IDLE.(sessions := map[0 := 0])
    ensures Moves(IDLE, LateEvents(answer, prices)[0], s1) && Moves(s1, LateEvents(answer, prices)[1], AfterChat())
  {
    ChatReaches();
  }

  lemma NextMoves(answer: Metering.Payload, prices: Prices, s3: Service)
    requires s3 == Do(AfterChat(), Accept(0, 0, 2))
    ensures Moves(AfterChat(), LateEvents(answer, prices)[2], s3)
            && Moves(s3, LateEvents(answer, prices)[3], AfterTimeout())
  {
    TimeoutReaches(s3);
  }

  lemma ChatHistory(answer: Metering.Payload, prices: Prices) returns (states: seq<Service>)
    ensures IsHistory(states, LateEvents(answer, prices)[..2]) && |states| == 3 && states[2] == AfterChat()
  {
    var events := LateEvents(answer, prices);
    var s1 := IDLE.(sessions := map[0 := 0]);
    FirstMoves(answer, prices, s1);
    Extended([IDLE], [], events[0], s1);
    Extended([IDLE] + [s1], [] + [events[0]], events[1], AfterChat());
    states := [IDLE] + [s1] + [AfterChat()];
    assert events[..2] == [] + [events[0]] + [events[1]];
  }

  lemma TimeoutHistory(answer: Metering.Payload, prices: Prices) returns (states: seq<Service>)
    ensures IsHistory(states, LateEvents(answer, prices)[..4]) && |states| == 5 && states[4] == AfterTimeout()
  {
    var events := LateEvents(answer, prices);
    var s3 := Do(AfterChat(), Accept(0, 0, 2));
    states := ChatHistory(answer, prices);
    NextMoves(answer, prices, s3);
    Extended(states, events[..2], events[2], s3);
    Extended(states + [s3], events[..2] + [events[2]], events[3], AfterTimeout());
    states := states + [s3] + [AfterTimeout()];
    assert events[..4] == events[..2] + [events[2]] + [events[3]];
  }

  lemma LateHistory(answer: Metering.Payload, prices: Prices, s5: Service) returns (states: seq<Service>)
    requires s5 == HandleCompletion(AfterTimeout(), 0, Report(0, 0, answer), Findings(true, false), 4, 0, Some(prices),
             NOBODY)
    ensures IsHistory(states, LateEvents(answer, prices)) && |states| == 6 && states[5] == s5
  {
    var events := LateEvents(answer, prices);
    states := TimeoutHistory(answer, prices);
    Extended(states, events[..4], events[4], s5);
    states := states + [s5];
    assert events[..4] + [events[4]] == events;
  }

  lemma AnsweredLate(answer: Metering.Payload, prices: Prices, s5: Service)
    requires Metering.Plausible(Metering.NO_REQUEST, answer) && StorableUsage(Metering.UsageOf(answer))
    requires HostCredit(Metering.UsageOf(answer), prices) >= 0
    requires s5 == HandleCompletion(AfterTimeout(), 0, Report(0, 0, answer), Findings(true, false), 4, 0, Some(prices),
             NOBODY)
    ensures |s5.store.jobs| > 0 && s5.store.jobs[0].request == SMALL
    ensures |s5.store.ledger.holds| == 1 && s5.store.ledger.holds[0].job == 0
    ensures s5.store.ledger.holds[0].amount == HostCredit(Metering.UsageOf(answer), prices)
  {
    var s4 := AfterTimeout();
    LateBill(s4, 0, Report(0, 0, answer), 4, prices, s5);
  }

  /** Whatever is plausible for an empty request is credited to the host, although the job asked for ten tokens. */
  lemma LateAnswerIsCredited(answer: Metering.Payload, prices: Prices) returns (states: seq<Service>)
    requires Metering.Plausible(Metering.NO_REQUEST, answer) && StorableUsage(Metering.UsageOf(answer))
    requires HostCredit(Metering.UsageOf(answer), prices) >= 0
    ensures IsHistory(states, LateEvents(answer, prices)) && |states| == 6
    ensures |states[5].store.jobs| > 0 && states[5].store.jobs[0].request == SMALL
    ensures |states[5].store.ledger.holds| == 1 && states[5].store.ledger.holds[0].job == 0
    ensures states[5].store.ledger.holds[0].amount == HostCredit(Metering.UsageOf(answer), prices)
  {
    var s5 := HandleCompletion(AfterTimeout(), 0, Report(0, 0, answer), Findings(true, false), 4, 0, Some(prices),
      NOBODY);
    states := LateHistory(answer, prices, s5);
    AnsweredLate(answer, prices, s5);
  }

  /**
   An answer of 2064 tokens is implausible for a request for ten, whose bound is 36; but the run is
   gone, so it is accepted and the host credited for all of it.
   */
  lemma CreditBeyondTheRequest() returns (states: seq<Service>)
    ensures IsHistory(states, LateEvents(LongAnswer(), PRICES)) && |states| == 6
    ensures Metering.CompletionLimit(SMALL) == 36 && !Metering.Plausible(SMALL, LongAnswer())
    ensures |states[5].store.jobs| > 0 && states[5].store.jobs[0].request == SMALL
    ensures |states[5].store.ledger.holds| == 1 && states[5].store.ledger.holds[0].job == 0
            && states[5].store.ledger.holds[0].amount == 2064
  {
    LongAnswerIsPlausible();
    LongAnswerCredit();
    states := LateAnswerIsCredited(LongAnswer(), PRICES);
  }
}
