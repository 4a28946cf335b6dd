/** What holds of the agent in every state of every run. */
module AgentSafety {
  import opened Agent

  // ---------------------------------------------------------------- the guard invariant

  predicate Booting(phase: Phase) {
    phase != Serving && phase != Ended
  }

  predicate Inv(m: Machine) {
    var s := m.agent;
    && (s.life == Available ==> s.thermal == Normal && (s.active.None? || s.pauseRequested ==> s.schedule == InWindow))
    && (s.life == Busy ==> s.active.Some?)
    && (s.active.Some? ==> m.running > 0)
    && (Booting(m.phase) ==> m.running == 0 && Clear(s) && s.life != Draining && s.life != Idle)
    && (m.phase == Fresh && s.pauseRequested ==> s.life in {Paused, Available, Errored})
    && (m.phase == Begun && s.pauseRequested ==> s.life in {Starting, Paused, Available, Errored})
  }

  lemma StepKeepsInv(l: Limits, m: Machine, step: Step)
    requires Possible(l, m, step) && Inv(m)
    ensures Inv(Next(l, m, step))
  {
  }

  /**
   An available agent was thermally normal when last evaluated, and in its window unless it holds a
   job and is not asked to pause; a busy one holds a job, and a job that is held is being worked on.
   */
  lemma {:induction false} GuardsHoldInEveryRun(l: Limits, states: seq<Machine>, steps: seq<Step>, k: nat)
    requires IsRun(l, states, steps) && k < |states|
    ensures Inv(states[k])
  {
    if k > 0 {
      GuardsHoldInEveryRun(l, states, steps, k - 1);
      assert StepAt(l, states, steps, k - 1);
      StepKeepsInv(l, states[k - 1], steps[k - 1]);
    }
  }

  /** In every run a claim's thermal check never decides, and its schedule check only while a job is held. */
  lemma ClaimDecidedBy(l: Limits, states: seq<Machine>, steps: seq<Step>, k: nat, offer: Offer, now: Time)
    requires IsRun(l, states, steps) && k < |states|
    ensures Claimable(states[k].agent, offer, now) <==>
            (&& now <= offer.leaseExpiresAt && offer.wellFormed
             && states[k].agent.life == Available && !states[k].agent.pauseRequested
             && (states[k].agent.active.Some? ==> states[k].agent.schedule == InWindow)
             && states[k].agent.runtime.model == offer.model && states[k].agent.runtime.modelHash != ""
             && states[k].agent.runtime.runtimeHash != "" && states[k].agent.runtime.baseURL != "")
  {
    GuardsHoldInEveryRun(l, states, steps, k);
  }

  // ---------------------------------------------------------------- pausing

  /**
   From a pause to the next resume the request stands and the only job there can be is the one held
   at the pause. Resumes that had begun before may end in between.
   */
  lemma {:induction false} PauseHolds(l: Limits, states: seq<Machine>, steps: seq<Step>, i: nat, k: nat)
    requires IsRun(l, states, steps) && i < k < |states| && steps[i].PauseNow?
    requires forall n | i < n < k :: !steps[n].ResumeBegins?
    ensures states[k].agent.pauseRequested
    ensures states[k].agent.active.None? || states[k].agent.active == states[i].agent.active
    decreases k
  {
    assert StepAt(l, states, steps, k - 1);
    if i < k - 1 {
      PauseHolds(l, states, steps, i, k - 1);
    }
  }

  /** Between a pause and the next resume every offer is refused and leaves the agent as it was. */
  lemma NoClaimWhilePaused(l: Limits, states: seq<Machine>, steps: seq<Step>, i: nat, k: nat)
    requires IsRun(l, states, steps) && i < k < |steps| && steps[i].PauseNow? && steps[k].JobOffer?
    requires forall n | i < n < k :: !steps[n].ResumeBegins?
    ensures states[k + 1] == states[k]
  {
    PauseHolds(l, states, steps, i, k);
    assert StepAt(l, states, steps, k);
  }

  /** A heartbeat, a pause or the beginning of a resume puts state and request in line, whatever came before. */
  lemma GuardsRestorePause(l: Limits, m: Machine, step: Step)
    requires Possible(l, m, step) && (step.Heartbeat? || step.PauseNow? || step.ResumeBegins?)
    ensures var s' := Next(l, m, step).agent;
            s'.pauseRequested ==> s'.life == if s'.active.Some? then Draining else Paused
  {
  }

  // ---------------------------------------------------------------- the thermal trace law

  predicate Sensible(l: Limits) {
    0 < l.maxTemp < l.hardTemp && l.hysteresis >= 0
  }

  /** Some reading exceeded the limit and none since has come down to the recovery point. */
  predicate StillHot(l: Limits, readings: seq<int>) {
    exists i | 0 <= i < |readings| :: HotSince(l, readings, i)
  }

  predicate HotSince(l: Limits, readings: seq<int>, i: nat)
    requires i < |readings|
  {
    readings[i] > l.maxTemp && forall j | i <= j < |readings| :: readings[j] > RecoverAt(l)
  }

  lemma StillHotStep(l: Limits, readings: seq<int>, temp: int)
    requires Sensible(l)
    ensures StillHot(l, readings + [temp]) <==> temp > RecoverAt(l) && (temp > l.maxTemp || StillHot(l, readings))
  {
    var more := readings + [temp];
    if temp > l.maxTemp {
      assert HotSince(l, more, |readings|);
    }
    if StillHot(l, readings) && temp > RecoverAt(l) {
      var i :| 0 <= i < |readings| && HotSince(l, readings, i);
      assert HotSince(l, more, i);
    }
    if StillHot(l, more) {
      var i :| 0 <= i < |more| && HotSince(l, more, i);
      assert more[|readings|] == temp;
      if i < |readings| {
        forall j | i <= j < |readings| ensures readings[j] > RecoverAt(l) {
          assert more[j] == readings[j];
        }
        assert HotSince(l, readings, i);
      }
    }
  }

  /**
   After any readings the state is the hard limit exactly when the last reached it, and not normal
   exactly when some reading exceeded the limit and every one since stayed above the recovery point.
   */
  lemma {:induction false} ThermalTraceLaw(l: Limits, readings: seq<int>)
    requires Sensible(l)
    ensures AfterReadings(l, readings) == HardLimit <==> readings != [] && readings[|readings| - 1] >= l.hardTemp
    ensures AfterReadings(l, readings) != Normal <==> StillHot(l, readings)
  {
    if readings != [] {
      var n := |readings| - 1;
      ThermalTraceLaw(l, readings[..n]);
      StillHotStep(l, readings[..n], readings[n]);
      assert readings[..n] + [readings[n]] == readings;
    }
  }

  function Readings(steps: seq<Step>): seq<int> {
    if steps == [] then []
    else
      var step := steps[|steps| - 1];
      Readings(steps[..|steps| - 1]) + if Reads(step) then [step.temp] else []
  }

  /** The job monitor's shortcut agrees with the hysteresis rule, so the law covers it too. */
  lemma {:induction false} ThermalStateOfARun(l: Limits, states: seq<Machine>, steps: seq<Step>, k: nat)
    requires IsRun(l, states, steps) && k < |states| && Sensible(l)
    ensures states[k].agent.thermal == AfterReadings(l, Readings(steps[..k]))
  {
    if k > 0 {
      ThermalStateOfARun(l, states, steps, k - 1);
      NextReadings(l, steps, k - 1);
      assert StepAt(l, states, steps, k - 1);
      StepThermal(l, states[k - 1], steps[k - 1]);
    }
  }

  predicate Reads(step: Step) {
    step.Heartbeat? || step.MonitorReads?
  }

  lemma NextReadings(l: Limits, steps: seq<Step>, k: nat)
    requires k < |steps|
    ensures AfterReadings(l, Readings(steps[..k + 1]))
            == if Reads(steps[k]) then NextThermal(l, AfterReadings(l, Readings(steps[..k])), steps[k].temp)
               else AfterReadings(l, Readings(steps[..k]))
  {
    assert steps[..k + 1][..k] == steps[..k];
    var before := Readings(steps[..k]);
    if Reads(steps[k]) {
      assert (before + [steps[k].temp])[..|before|] == before;
    } else {
      assert before + [] == before;
    }
  }

  lemma StepThermal(l: Limits, m: Machine, step: Step)
    requires Sensible(l) && Possible(l, m, step)
    ensures Next(l, m, step).agent.thermal
            == if Reads(step) then NextThermal(l, m.agent.thermal, step.temp) else m.agent.thermal
  {
    if !Reads(step) {
      OtherStepsKeepThermal(l, m, step);
    }
  }

  lemma OtherStepsKeepThermal(l: Limits, m: Machine, step: Step)
    requires !Reads(step) && Possible(l, m, step)
    ensures Next(l, m, step).agent.thermal == m.agent.thermal
  {
  }

  /** While the readings say hot, every offer is refused and leaves the agent as it was. */
  lemma HotAgentsTakeNoWork(l: Limits, states: seq<Machine>, steps: seq<Step>, k: nat)
    requires IsRun(l, states, steps) && k < |steps| && Sensible(l) && steps[k].JobOffer?
    requires StillHot(l, Readings(steps[..k]))
    ensures states[k + 1] == states[k]
  {
    ThermalStateOfARun(l, states, steps, k);
    ThermalTraceLaw(l, Readings(steps[..k]));
    assert StepAt(l, states, steps, k);
  }
}
