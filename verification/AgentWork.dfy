/**
 That the agent gets back to work, and exactly when: what a heartbeat leaves of each state, that a
 cooled-down agent is available again, what the end of a job leads to, and what pausing, resuming,
 overheating and starting up come to when nothing interferes.
 */
module AgentWork {
  import opened Options
  import opened Agent
  import opened AgentSafety

  // ---------------------------------------------------------------- the life-cycle table, by destination

  /** Which states lead to each state: the table of legal transitions read the other way round. */
  lemma LegalInto(from: Life, to: Life)
    ensures to in LegalFrom(from) <==>
            match to
            case Unregistered => false
            case Registering => from == Unregistered
            case Offline => from !in {Unregistered, Offline}
            case Starting => from in {Offline, Errored, Updating}
            case Benchmarking => from == Starting
            case Idle => from in {Starting, Benchmarking, Paused}
            case Preparing => from in {Starting, Benchmarking, Idle, Paused}
            case Available => from in {Preparing, Busy, Draining}
            case Busy => from == Available
            case Draining => from in {Starting, Benchmarking, Idle, Preparing, Available, Busy, Paused}
            case Paused => from in {Starting, Benchmarking, Idle, Preparing, Available, Draining}
            case Errored => from !in {Unregistered, Errored}
            case Updating => from !in {Unregistered, Registering, Updating}
  {
  }

  // ---------------------------------------------------------------- heartbeats

  /** A complete runtime: model, both hashes and an address. */
  predicate Loaded(r: Runtime) {
    r.model != "" && r.modelHash != "" && r.runtimeHash != "" && r.baseURL != ""
  }

  /** The agent as a heartbeat leaves it. */
  function After(l: Limits, m: Machine, beat: Step): State
    requires beat.Heartbeat? && Possible(l, m, beat)
  {
    Next(l, m, beat).agent
  }

  /**
   An agent is available after a heartbeat exactly when it is not asked to pause, the reading leaves it
   thermally normal, and either it has no job, is in its window and was available, or idle or draining
   with a complete runtime; or it holds a job and was available.
   */
  lemma AvailableAfterHeartbeatIff(l: Limits, m: Machine, beat: Step)
    requires beat.Heartbeat? && Possible(l, m, beat) && Inv(m)
    ensures var s := m.agent;
            After(l, m, beat).life == Available <==>
            && !s.pauseRequested && NextThermal(l, s.thermal, beat.temp) == Normal
            && (|| (s.active.None? && beat.schedule == InWindow
                    && (s.life == Available || ((s.life == Idle || s.life == Draining) && Loaded(s.runtime))))
                || (s.active.Some? && s.life == Available))
  {
  }

  /** Paused exactly when asked to and without a job, or when paused already and nothing else calls for a state. */
  lemma PausedAfterHeartbeatIff(l: Limits, m: Machine, beat: Step)
    requires beat.Heartbeat? && Possible(l, m, beat)
    ensures var s := m.agent;
            After(l, m, beat).life == Paused <==>
            if s.pauseRequested then s.active.None?
            else s.life == Paused && !(NextThermal(l, s.thermal, beat.temp) != Normal && s.active.Some?)
  {
  }

  /** Draining exactly when a job is held by an agent asked to pause or running hot, or it was and nothing ends it. */
  lemma DrainingAfterHeartbeatIff(l: Limits, m: Machine, beat: Step)
    requires beat.Heartbeat? && Possible(l, m, beat) && Inv(m)
    ensures var s, hot := m.agent, NextThermal(l, m.agent.thermal, beat.temp) != Normal;
            After(l, m, beat).life == Draining <==>
            || (s.active.Some? && (s.pauseRequested || hot))
            || (s.life == Draining && !s.pauseRequested && !hot
                && (s.active.Some? || beat.schedule == OutOfWindow || !Loaded(s.runtime)))
  {
  }

  /** Idle exactly when a free agent is too hot or out of its window to be available, or stays idle. */
  lemma IdleAfterHeartbeatIff(l: Limits, m: Machine, beat: Step)
    requires beat.Heartbeat? && Possible(l, m, beat) && Inv(m)
    ensures var s, hot := m.agent, NextThermal(l, m.agent.thermal, beat.temp) != Normal;
            After(l, m, beat).life == Idle <==>
            && !s.pauseRequested
            && (|| (s.active.None? && hot && s.life in {Available, Preparing, Draining, Idle})
                || (s.active.None? && !hot && beat.schedule == OutOfWindow && s.life in {Available, Preparing, Idle})
                || (s.active.None? && !hot && beat.schedule == InWindow && s.life == Idle && !Loaded(s.runtime))
                || (s.active.Some? && !hot && s.life == Idle))
  {
  }

  /** A heartbeat changes nothing but life-cycle state, schedule, temperature and, once idle too long, the runtime. */
  lemma HeartbeatKeeps(l: Limits, m: Machine, beat: Step)
    requires beat.Heartbeat? && Possible(l, m, beat)
    ensures var s, s' := m.agent, After(l, m, beat);
            && s'.active == s.active && s'.pauseRequested == s.pauseRequested && s'.pausedAt == s.pausedAt
            && s'.schedule == beat.schedule && s'.thermal == NextThermal(l, s.thermal, beat.temp)
            && s'.runtime == (if Unloads(l, s, s'.life, beat) then Runtime("", "", "", "") else s.runtime)
            && s'.life in {s.life, Available, Idle, Paused, Draining}
            && Next(l, m, beat) == m.(agent := s')
  {
  }

  /** The paused agent has had nothing to do for its idle time, and its runtime can be closed. */
  predicate Unloads(l: Limits, s: State, life: Life, beat: Step)
    requires beat.Heartbeat?
  {
    && life == Paused && s.active.None? && s.pausedAt.Some? && l.pauseIdleTimeout > 0
    && beat.now - s.pausedAt.value >= l.pauseIdleTimeout && beat.closable && s.runtime.baseURL != ""
  }

  // ---------------------------------------------------------------- recovery

  /**
   The agent recovers: unpaused, free and idle or draining with its runtime loaded, it is available
   after a heartbeat in the window exactly when the readings, that one included, no longer say hot.
   */
  lemma RecoversIff(l: Limits, states: seq<Machine>, steps: seq<Step>, k: nat)
    requires IsRun(l, states, steps) && k < |steps| && Sensible(l)
    requires steps[k].Heartbeat? && steps[k].schedule == InWindow
    requires var s := states[k].agent;
             !s.pauseRequested && s.active.None? && (s.life == Idle || s.life == Draining) && Loaded(s.runtime)
    ensures states[k + 1].agent.life == Available <==> !StillHot(l, Readings(steps[..k + 1]))
  {
    NormalAfterIff(l, states, steps, k);
    AvailableAfterHeartbeatIff(l, states[k], steps[k]);
  }

  /** A heartbeat's step, and what its reading makes of the temperature. */
  lemma NormalAfterIff(l: Limits, states: seq<Machine>, steps: seq<Step>, k: nat)
    requires IsRun(l, states, steps) && k < |steps| && Sensible(l) && steps[k].Heartbeat?
    ensures Possible(l, states[k], steps[k]) && Inv(states[k]) && states[k + 1].agent == After(l, states[k], steps[k])
    ensures NextThermal(l, states[k].agent.thermal, steps[k].temp) == Normal
            <==> !StillHot(l, Readings(steps[..k + 1]))
  {
    assert StepAt(l, states, steps, k);
    GuardsHoldInEveryRun(l, states, steps, k);
    ThermalStateOfARun(l, states, steps, k + 1);
    ThermalTraceLaw(l, Readings(steps[..k + 1]));
    HeartbeatKeeps(l, states[k], steps[k]);
  }

  /** A hot reading takes a free available agent out of work, and so does leaving the window. */
  lemma StopsIff(l: Limits, states: seq<Machine>, steps: seq<Step>, k: nat)
    requires IsRun(l, states, steps) && k < |steps| && Sensible(l) && steps[k].Heartbeat?
    requires var s := states[k].agent; !s.pauseRequested && s.active.None? && s.life == Available
    ensures states[k + 1].agent.life
            == if StillHot(l, Readings(steps[..k + 1])) || steps[k].schedule == OutOfWindow then Idle else Available
  {
    NormalAfterIff(l, states, steps, k);
    AvailableAfterHeartbeatIff(l, states[k], steps[k]);
    IdleAfterHeartbeatIff(l, states[k], steps[k]);
  }

  // ---------------------------------------------------------------- the end of a job

  /** In the window and cool. */
  predicate FitToWork(s: State) {
    s.schedule == InWindow && s.thermal == Normal
  }

  /**
   When a job ends the agent has none. It is paused if it was asked to be, from that moment on; idle if
   it is out of its window or hot; available if it was busy or draining; and otherwise as it was.
   */
  lemma JobEnds(l: Limits, m: Machine, now: Time)
    requires Possible(l, m, JobOver(now))
    ensures var s, s' := m.agent, Next(l, m, JobOver(now)).agent;
            && s'.active.None? && Next(l, m, JobOver(now)).running == m.running - 1
            && (s'.life == Paused <==> s.pauseRequested || (s.life == Paused && FitToWork(s)))
            && (s'.life == Available <==>
                  !s.pauseRequested && FitToWork(s) && (s.life == Busy || s.life == Draining || s.life == Available))
            && (s'.life == Idle <==> !s.pauseRequested && (!FitToWork(s) || s.life == Idle))
            && s'.pausedAt == (if s.pauseRequested then Some(now) else s.pausedAt)
            && s' == s.(active := None, life := s'.life, pausedAt := s'.pausedAt)
  {
  }

  /** The model asked for is the one loaded, with both hashes and an address. */
  predicate Serves(r: Runtime, model: string) {
    r.model == model && r.modelHash != "" && r.runtimeHash != "" && r.baseURL != ""
  }

  /** In every run a job that ends undisturbed, in the window, cool and unpaused, leaves an agent ready for the next. */
  lemma ReadyForTheNext(l: Limits, states: seq<Machine>, steps: seq<Step>, c: nat)
    requires IsRun(l, states, steps) && c + 1 < |steps| && steps[c].JobOffer? && steps[c + 1].JobOver?
    requires Claimable(states[c].agent, steps[c].offer, steps[c].now)
    ensures states[c + 1].agent.life == Busy && states[c + 1].agent.active == Some(steps[c].offer.job)
    ensures states[c + 2].agent == states[c].agent.(active := None)
  {
    assert StepAt(l, states, steps, c) && StepAt(l, states, steps, c + 1);
    JobEnds(l, states[c + 1], steps[c + 1].now);
  }

  // ---------------------------------------------------------------- offers, pauses, resumes, heat

  /**
   An offer is taken when it is well formed and not expired and the agent available, unpaused, in its window,
   cool and loaded with the very model asked for: the agent is then busy with its job. Otherwise nothing changes.
   */
  lemma OfferTaken(l: Limits, m: Machine, offer: Offer, now: Time)
    requires Possible(l, m, JobOffer(offer, now))
    ensures var m' := Next(l, m, JobOffer(offer, now));
            var s := m.agent;
            if s.life == Available && !s.pauseRequested && FitToWork(s) && Serves(s.runtime, offer.model)
               && offer.wellFormed && now <= offer.leaseExpiresAt
            then m' == m.(agent := m.agent.(active := Some(offer.job), life := Busy), running := m.running + 1)
            else m' == m
  {
  }

  /** A pause always takes: paused at once without a job, draining with one. */
  lemma PauseTakes(l: Limits, m: Machine, now: Time)
    ensures var s, s' := m.agent, Next(l, m, PauseNow(now)).agent;
            && s'.pauseRequested && s'.life == (if s.active.Some? then Draining else Paused)
            && s'.pausedAt == (if s.active.Some? then s.pausedAt else Some(now))
            && s' == s.(pauseRequested := true, life := s'.life, pausedAt := s'.pausedAt)
            && Next(l, m, PauseNow(now)) == m.(agent := s')
  {
  }

  /**
   A resume with nothing in between: the request is gone; with a job that is all; otherwise the agent is
   available if it is in its window and cool, and idle if not, with the runtime it had or the one that
   was prepared for it.
   */
  lemma ResumeAlone(l: Limits, m: Machine, prepared: Runtime) returns (m': Machine)
    ensures var s, s', call := m.agent, m'.agent, |m.resumes|;
            var missing := s.runtime.model == "" || s.runtime.baseURL == "";
            && (s.active.Some? ==> m' == Next(l, m, ResumeBegins))
            && (s.active.None? && !missing ==>
                  && Possible(l, Next(l, m, ResumeBegins), ResumeEnds(call))
                  && m' == Next(l, Next(l, m, ResumeBegins), ResumeEnds(call)))
            && (s.active.None? && missing ==>
                  && Possible(l, Next(l, m, ResumeBegins), ResumeLoads(call, Some(prepared)))
                  && var loaded := Next(l, Next(l, m, ResumeBegins), ResumeLoads(call, Some(prepared)));
                  && Possible(l, loaded, ResumeEnds(call)) && m' == Next(l, loaded, ResumeEnds(call)))
            && !s'.pauseRequested && s'.pausedAt.None? && s'.active == s.active
            && s'.life == (if s.active.Some? then s.life else if FitToWork(s) then Available else Idle)
            && s'.runtime == (if s.active.None? && missing then prepared else s.runtime)
            && s'.schedule == s.schedule && s'.thermal == s.thermal
            && m'.resumes == m.resumes + [Over] && m'.phase == m.phase && m'.running == m.running
  {
    m' := Next(l, m, ResumeBegins);
    var call, stage := |m.resumes|, StageAfter(m.agent);
    assert m'.resumes[call] == stage;
    if stage == AwaitsRuntime {
      m' := Next(l, m', ResumeLoads(call, Some(prepared)));
    }
    if stage != Over {
      m' := Next(l, m', ResumeEnds(call));
    }
    assert m'.resumes == m.resumes + [Over];
  }

  /** A resume whose runtime cannot be prepared ends there, with the agent in error where that is legal. */
  lemma ResumeFails(l: Limits, m: Machine, call: nat)
    requires Possible(l, m, ResumeLoads(call, None))
    ensures var m' := Next(l, m, ResumeLoads(call, None));
            && m'.resumes[call] == Over && m'.agent == m.agent.(life := m'.agent.life)
            && m'.agent.life == if m.agent.life == Unregistered then Unregistered else Errored
  {
  }

  /** The monitor of a running job sees the hard limit: the agent is hot and draining, whatever it was. */
  lemma Overheats(l: Limits, m: Machine, temp: int)
    requires Possible(l, m, MonitorReads(temp))
    ensures Next(l, m, MonitorReads(temp)) == m.(agent := m.agent.(thermal := HardLimit, life := Draining))
  {
  }

  /**
   Start-up with nothing in between ends available and serving, with the runtime that was prepared; a
   failure in error.
   */
  lemma StartsUp(l: Limits, prepared: Option<Runtime>)
    ensures var begun := Next(l, Next(l, START, Boot(None)), Boot(None));
            var loaded := Next(l, begun, Boot(prepared));
            && begun == START.(agent := FRESH.(life := Preparing), phase := Loading)
            && (prepared.None? ==> loaded == START.(agent := FRESH.(life := Errored), phase := Ended))
            && (prepared.Some? ==>
                  Next(l, loaded, Boot(None))
                  == START.(agent := FRESH.(life := Available, runtime := prepared.value), phase := Serving))
  {
  }

  /** Stopping the agent takes it offline, whatever it was doing. */
  lemma ShutsDown(l: Limits, m: Machine)
    requires Possible(l, m, Shutdown) && m.agent.life != Unregistered
    ensures Next(l, m, Shutdown) == m.(agent := m.agent.(life := Offline), phase := Ended)
  {
  }

  /** Free, unpaused and idle with its runtime loaded. */
  predicate Waiting(s: State) {
    !s.pauseRequested && s.active.None? && s.life == Idle && Loaded(s.runtime)
  }

  /** Heartbeats in the window and nothing else, from step i to step k. */
  predicate OnlyHeartbeats(steps: seq<Step>, i: nat, k: nat)
    requires k <= |steps|
  {
    forall n | i <= n < k :: steps[n].Heartbeat? && steps[n].schedule == InWindow
  }

  predicate HotAfter(l: Limits, steps: seq<Step>, n: nat)
    requires n < |steps|
  {
    StillHot(l, Readings(steps[..n + 1]))
  }

  predicate HotThrough(l: Limits, steps: seq<Step>, i: nat, k: nat)
    requires k <= |steps|
  {
    forall n | i <= n < k :: HotAfter(l, steps, n)
  }

  /** A waiting agent waits through every heartbeat of a hot spell and is available after the first that ends it. */
  lemma {:induction false} RecoversAtOnce(l: Limits, states: seq<Machine>, steps: seq<Step>, i: nat, k: nat)
    requires IsRun(l, states, steps) && i <= k < |steps| && Sensible(l) && OnlyHeartbeats(steps, i, k + 1)
    requires Waiting(states[i].agent) && HotThrough(l, steps, i, k)
    ensures Waiting(states[k].agent)
    ensures states[k + 1].agent.life == if StillHot(l, Readings(steps[..k + 1])) then Idle else Available
    decreases k
  {
    if i < k {
      RecoversAtOnce(l, states, steps, i, k - 1);
      assert HotAfter(l, steps, k - 1);
      NormalAfterIff(l, states, steps, k - 1);
      HeartbeatKeeps(l, states[k - 1], steps[k - 1]);
    }
    RecoversIff(l, states, steps, k);
    NormalAfterIff(l, states, steps, k);
    IdleAfterHeartbeatIff(l, states[k], steps[k]);
  }
}
