/**
 What a pause, a claim and the sections of start-up and of resumes can come to when they interleave:
 exactly when an available agent is asked to pause, exactly when it holds a job, and exactly when a
 claim replaces a job that is still being worked on.
 */
module AgentRaces {
  import opened Options
  import opened Agent
  import opened AgentSafety

  // ---------------------------------------------------------------- what is held, told by the steps

  /** A pause came at i and no resume has begun since. */
  ghost predicate PauseStands(steps: seq<Step>, i: nat, k: nat)
    requires k <= |steps|
  {
    i < k && steps[i].PauseNow? && forall n | i < n < k :: !steps[n].ResumeBegins?
  }

  /** The agent is asked to pause exactly when some pause stands. */
  lemma {:induction false} RequestedIff(l: Limits, states: seq<Machine>, steps: seq<Step>, k: nat)
    requires IsRun(l, states, steps) && k < |states|
    ensures states[k].agent.pauseRequested <==> exists i: nat :: PauseStands(steps, i, k)
  {
    if k > 0 {
      RequestedIff(l, states, steps, k - 1);
      assert StepAt(l, states, steps, k - 1);
      if steps[k - 1].PauseNow? {
        assert PauseStands(steps, k - 1, k);
      } else if states[k].agent.pauseRequested {
        var i: nat :| PauseStands(steps, i, k - 1);
        assert PauseStands(steps, i, k);
      } else if i: nat :| PauseStands(steps, i, k) {
        assert PauseStands(steps, i, k - 1);
      }
    }
  }

  /** An offer was taken at c with no job held, and no job has ended since. */
  ghost predicate HeldSince(states: seq<Machine>, steps: seq<Step>, c: nat, k: nat)
    requires k < |states| == |steps| + 1
  {
    && c < k && steps[c].JobOffer? && states[c].agent.active.None?
    && Claimable(states[c].agent, steps[c].offer, steps[c].now)
    && forall n | c < n < k :: !steps[n].JobOver?
  }

  /** The agent holds a job exactly when one was taken and none has ended since. */
  lemma {:induction false} HeldIff(l: Limits, states: seq<Machine>, steps: seq<Step>, k: nat)
    requires IsRun(l, states, steps) && k < |states|
    ensures states[k].agent.active.Some? <==> exists c: nat :: HeldSince(states, steps, c, k)
  {
    if k > 0 {
      HeldIff(l, states, steps, k - 1);
      assert StepAt(l, states, steps, k - 1);
      if states[k].agent.active.Some? {
        if states[k - 1].agent.active.Some? {
          var c: nat :| HeldSince(states, steps, c, k - 1);
          assert HeldSince(states, steps, c, k);
        } else {
          assert HeldSince(states, steps, k - 1, k);
        }
      } else if c: nat :| HeldSince(states, steps, c, k) {
        assert c < k - 1 ==> HeldSince(states, steps, c, k - 1);
      }
    }
  }

  /** The call's first section. */
  ghost predicate BeginsCall(states: seq<Machine>, steps: seq<Step>, b: nat, call: nat)
    requires b < |steps| && |states| == |steps| + 1
  {
    steps[b].ResumeBegins? && |states[b].resumes| == call && states[b].agent.active.None?
  }

  lemma {:induction false} CallBegan(l: Limits, states: seq<Machine>, steps: seq<Step>, k: nat, call: nat)
    returns (b: nat)
    requires IsRun(l, states, steps) && k < |states| && call < |states[k].resumes| && states[k].resumes[call] != Over
    ensures b < k && BeginsCall(states, steps, b, call)
  {
    assert StepAt(l, states, steps, k - 1);
    if call < |states[k - 1].resumes| {
      b := CallBegan(l, states, steps, k - 1, call);
    } else {
      b := k - 1;
    }
  }

  // ---------------------------------------------------------------- available, and asked to pause

  /** A preparation of the runtime that failed, at start-up or in a resume. */
  predicate PreparationFails(m: Machine, step: Step) {
    (step.ResumeLoads? && step.prepared.None?) || (step.Boot? && m.phase == Loading && step.prepared.None?)
  }

  /** The steps that do not look at the request: start-up and resumes going on, and offers. */
  predicate Unheeding(m: Machine, step: Step) {
    (step.Boot? || step.JobOffer? || step.ResumeLoads? || step.ResumeEnds?) && !PreparationFails(m, step)
  }

  /** A resume that began before the pause ends after it, with nothing but the pause against working. */
  ghost predicate OverrunsPause(states: seq<Machine>, steps: seq<Step>, b: nat, i: nat, e: nat)
    requires |states| == |steps| + 1
  {
    && b < i < e < |steps| && steps[e].ResumeEnds? && BeginsCall(states, steps, b, steps[e].call)
    && PauseStands(steps, i, e) && Clear(states[e].agent)
  }

  /**
   A pause that start-up overruns: it came between the first two start-up transitions, or before the
   first and a resume then failed to prepare the runtime, also before the first.
   */
  ghost predicate EarlyPause(states: seq<Machine>, steps: seq<Step>, i: nat)
    requires i < |steps| && |states| == |steps| + 1
  {
    || (steps[i].PauseNow? && states[i].phase == Begun)
    || (states[i].agent.pauseRequested && states[i].phase == Fresh && PreparationFails(states[i], steps[i]))
  }

  ghost predicate NothingHeeds(states: seq<Machine>, steps: seq<Step>, i: nat, k: nat)
    requires k < |states| == |steps| + 1
  {
    i < k && forall n | i < n < k :: Unheeding(states[n], steps[n])
  }

  ghost predicate Overran(states: seq<Machine>, steps: seq<Step>, k: nat)
    requires k < |states| == |steps| + 1
  {
    exists b: nat, i: nat, e: nat :: OverrunsPause(states, steps, b, i, e) && NothingHeeds(states, steps, e, k)
  }

  ghost predicate PausedEarly(states: seq<Machine>, steps: seq<Step>, k: nat)
    requires k < |states| == |steps| + 1
  {
    exists i: nat :: NothingHeeds(states, steps, i, k) && EarlyPause(states, steps, i)
  }

  /** On the way from such a pause to an available agent, by start-up. */
  predicate OnCourse(m: Machine) {
    && m.agent.pauseRequested
    && ((m.phase == Fresh && m.agent.life == Errored)
        || (m.phase == Begun && (m.agent.life == Paused || m.agent.life == Starting))
        || ((m.phase == Loading || m.phase == Loaded) && m.agent.life == Preparing)
        || m.agent.life == Available)
  }

  predicate Ignored(m: Machine) {
    m.agent.life == Available && m.agent.pauseRequested
  }

  lemma StaysOnCourse(l: Limits, m: Machine, step: Step)
    requires Possible(l, m, step) && Inv(m) && OnCourse(m) && Unheeding(m, step)
    ensures OnCourse(Next(l, m, step)) && (Ignored(m) ==> Ignored(Next(l, m, step)))
  {
  }

  /** Each step that leads on course: an early pause, an overrunning end, or one that just goes on. */
  lemma CourseStep(l: Limits, states: seq<Machine>, steps: seq<Step>, k: nat)
    requires IsRun(l, states, steps) && k < |steps| && OnCourse(states[k + 1])
    ensures || EarlyPause(states, steps, k)
            || (steps[k].ResumeEnds? && states[k].agent.pauseRequested && Clear(states[k].agent))
            || (Unheeding(states[k], steps[k]) && OnCourse(states[k]))
  {
    assert StepAt(l, states, steps, k);
    GuardsHoldInEveryRun(l, states, steps, k);
  }

  /** A clear end of a resume under a request overruns a pause that came between its sections. */
  lemma EndOverruns(l: Limits, states: seq<Machine>, steps: seq<Step>, e: nat) returns (b: nat, i: nat)
    requires IsRun(l, states, steps) && e < |steps| && steps[e].ResumeEnds?
    requires states[e].agent.pauseRequested && Clear(states[e].agent)
    ensures OverrunsPause(states, steps, b, i, e)
  {
    assert StepAt(l, states, steps, e);
    RequestedIff(l, states, steps, e);
    i :| PauseStands(steps, i, e);
    b := CallBegan(l, states, steps, e, steps[e].call);
  }

  lemma NothingHeedsYet(states: seq<Machine>, steps: seq<Step>, k: nat)
    requires k < |steps| && |states| == |steps| + 1 && Unheeding(states[k], steps[k])
    ensures Overran(states, steps, k) ==> Overran(states, steps, k + 1)
    ensures PausedEarly(states, steps, k) ==> PausedEarly(states, steps, k + 1)
  {
    if Overran(states, steps, k) {
      var b: nat, i: nat, e: nat :| OverrunsPause(states, steps, b, i, e) && NothingHeeds(states, steps, e, k);
      assert NothingHeeds(states, steps, e, k + 1);
    }
    if PausedEarly(states, steps, k) {
      var i: nat :| NothingHeeds(states, steps, i, k) && EarlyPause(states, steps, i);
      assert NothingHeeds(states, steps, i, k + 1);
    }
  }

  lemma {:induction false} OnCourseBecause(l: Limits, states: seq<Machine>, steps: seq<Step>, k: nat)
    requires IsRun(l, states, steps) && k < |states| && OnCourse(states[k])
    ensures Overran(states, steps, k) || PausedEarly(states, steps, k)
    ensures Ignored(states[k]) ==> Overran(states, steps, k) || states[k].phase == Serving
  {
    if k > 0 {
      var n := k - 1;
      assert StepAt(l, states, steps, n);
      CourseStep(l, states, steps, n);
      if EarlyPause(states, steps, n) {
        assert NothingHeeds(states, steps, n, k);
      } else if steps[n].ResumeEnds? && states[n].agent.pauseRequested && Clear(states[n].agent) {
        var b, i := EndOverruns(l, states, steps, n);
        assert NothingHeeds(states, steps, n, k);
      } else {
        OnCourseBecause(l, states, steps, n);
        NothingHeedsYet(states, steps, n);
      }
    }
  }

  lemma {:induction false} CourseKept(l: Limits, states: seq<Machine>, steps: seq<Step>, i: nat, k: nat)
    requires IsRun(l, states, steps) && i < k < |states| && NothingHeeds(states, steps, i, k) && OnCourse(states[i + 1])
    ensures OnCourse(states[k]) && (Ignored(states[i + 1]) ==> Ignored(states[k]))
    decreases k
  {
    if i + 1 < k {
      CourseKept(l, states, steps, i, k - 1);
      assert StepAt(l, states, steps, k - 1);
      GuardsHoldInEveryRun(l, states, steps, k - 1);
      StaysOnCourse(l, states[k - 1], steps[k - 1]);
    }
  }

  lemma EarlyPauseStarts(l: Limits, states: seq<Machine>, steps: seq<Step>, i: nat)
    requires IsRun(l, states, steps) && i < |steps| && EarlyPause(states, steps, i)
    ensures OnCourse(states[i + 1])
  {
    assert StepAt(l, states, steps, i);
    GuardsHoldInEveryRun(l, states, steps, i);
  }

  lemma OverrunStarts(l: Limits, states: seq<Machine>, steps: seq<Step>, b: nat, i: nat, e: nat)
    requires IsRun(l, states, steps) && OverrunsPause(states, steps, b, i, e)
    ensures Ignored(states[e + 1])
  {
    assert StepAt(l, states, steps, e);
    RequestedIff(l, states, steps, e);
  }

  /**
   Exactly when an available agent is asked to pause: a resume that began before the pause ended
   after it, or start-up went through over an early pause; and nothing has heeded the pause since.
   */
  lemma AvailableAndPausedIff(l: Limits, states: seq<Machine>, steps: seq<Step>, k: nat)
    requires IsRun(l, states, steps) && k < |states|
    ensures states[k].agent.life == Available && states[k].agent.pauseRequested
            <==> Overran(states, steps, k) || (states[k].phase == Serving && PausedEarly(states, steps, k))
  {
    if Ignored(states[k]) {
      OnCourseBecause(l, states, steps, k);
    }
    if Overran(states, steps, k) {
      var b: nat, i: nat, e: nat :| OverrunsPause(states, steps, b, i, e) && NothingHeeds(states, steps, e, k);
      OverrunStarts(l, states, steps, b, i, e);
      CourseKept(l, states, steps, e, k);
    }
    if states[k].phase == Serving && PausedEarly(states, steps, k) {
      var i: nat :| NothingHeeds(states, steps, i, k) && EarlyPause(states, steps, i);
      EarlyPauseStarts(l, states, steps, i);
      CourseKept(l, states, steps, i, k);
    }
  }

  // ---------------------------------------------------------------- available, and holding a job

  /** A resume that began before the job was taken ends while it is held, in the window and thermally normal. */
  ghost predicate OverrunsJob(states: seq<Machine>, steps: seq<Step>, b: nat, c: nat, e: nat)
    requires |states| == |steps| + 1
  {
    && b < c < e < |steps| && steps[e].ResumeEnds? && BeginsCall(states, steps, b, steps[e].call)
    && HeldSince(states, steps, c, e) && Clear(states[e].agent)
  }

  /** The steps that leave an available agent with its job as it is. */
  predicate LeavesBe(l: Limits, m: Machine, step: Step) {
    match step
    case Boot(_) => true
    case ResumeBegins => true
    case ResumeLoads(_, prepared) => prepared.Some?
    case ResumeEnds(_) => Clear(m.agent)
    case Heartbeat(_, _, temp, _) => !m.agent.pauseRequested && NextThermal(l, m.agent.thermal, temp) == Normal
    case JobOffer(offer, now) => !Claimable(m.agent, offer, now)
    case _ => false
  }

  ghost predicate LeftBe(l: Limits, states: seq<Machine>, steps: seq<Step>, e: nat, k: nat)
    requires k < |states| == |steps| + 1
  {
    e < k && forall n | e < n < k :: LeavesBe(l, states[n], steps[n])
  }

  ghost predicate JobOverrun(l: Limits, states: seq<Machine>, steps: seq<Step>, k: nat)
    requires k < |states| == |steps| + 1
  {
    exists b: nat, c: nat, e: nat :: OverrunsJob(states, steps, b, c, e) && LeftBe(l, states, steps, e, k)
  }

  predicate Overbooked(m: Machine) {
    m.agent.life == Available && m.agent.active.Some?
  }

  lemma OverbookedStep(l: Limits, m: Machine, step: Step)
    requires Possible(l, m, step) && Inv(m)
    ensures Overbooked(Next(l, m, step)) <==>
            || (step.ResumeEnds? && m.agent.active.Some? && Clear(m.agent))
            || (Overbooked(m) && LeavesBe(l, m, step))
  {
  }

  /** A resume that ends while a job is held began before that job was taken. */
  lemma BeganBefore(l: Limits, states: seq<Machine>, steps: seq<Step>, e: nat) returns (b: nat, c: nat)
    requires IsRun(l, states, steps) && e < |steps| && steps[e].ResumeEnds? && states[e].agent.active.Some?
    ensures b < c < e && BeginsCall(states, steps, b, steps[e].call) && HeldSince(states, steps, c, e)
  {
    assert StepAt(l, states, steps, e);
    HeldIff(l, states, steps, e);
    c :| HeldSince(states, steps, c, e);
    b := CallBegan(l, states, steps, e, steps[e].call);
    if b > c {
      assert HeldSince(states, steps, c, b);
      HeldIff(l, states, steps, b);
    }
  }

  lemma {:induction false} OverbookedBecause(l: Limits, states: seq<Machine>, steps: seq<Step>, k: nat)
    requires IsRun(l, states, steps) && k < |states| && Overbooked(states[k])
    ensures JobOverrun(l, states, steps, k)
  {
    if k > 0 {
      var n := k - 1;
      assert StepAt(l, states, steps, n);
      GuardsHoldInEveryRun(l, states, steps, n);
      OverbookedStep(l, states[n], steps[n]);
      if steps[n].ResumeEnds? && states[n].agent.active.Some? && Clear(states[n].agent) {
        var b, c := BeganBefore(l, states, steps, n);
        assert OverrunsJob(states, steps, b, c, n) && LeftBe(l, states, steps, n, k);
      } else {
        OverbookedBecause(l, states, steps, n);
        var b: nat, c: nat, e: nat :| OverrunsJob(states, steps, b, c, e) && LeftBe(l, states, steps, e, n);
        assert LeftBe(l, states, steps, e, k);
      }
    }
  }

  lemma {:induction false} OverbookedSince(l: Limits, states: seq<Machine>, steps: seq<Step>, b: nat, c: nat, e: nat,
                                           k: nat)
    requires IsRun(l, states, steps) && k < |states| && OverrunsJob(states, steps, b, c, e)
             && LeftBe(l, states, steps, e, k)
    ensures Overbooked(states[k])
    decreases k
  {
    var n := k - 1;
    assert StepAt(l, states, steps, n);
    GuardsHoldInEveryRun(l, states, steps, n);
    OverbookedStep(l, states[n], steps[n]);
    if e < n {
      OverbookedSince(l, states, steps, b, c, e, n);
    } else {
      HeldIff(l, states, steps, e);
    }
  }

  /**
   Exactly when an available agent holds a job: a resume that began before the job was taken ended
   while it was held, and everything since has left it at that.
   */
  lemma AvailableWithJobIff(l: Limits, states: seq<Machine>, steps: seq<Step>, k: nat)
    requires IsRun(l, states, steps) && k < |states|
    ensures states[k].agent.life == Available && states[k].agent.active.Some? <==> JobOverrun(l, states, steps, k)
  {
    if Overbooked(states[k]) {
      OverbookedBecause(l, states, steps, k);
    }
    if JobOverrun(l, states, steps, k) {
      var b: nat, c: nat, e: nat :| OverrunsJob(states, steps, b, c, e) && LeftBe(l, states, steps, e, k);
      OverbookedSince(l, states, steps, b, c, e, k);
    }
  }

  /** In every run an available agent without such a race has no job and was in its window and thermally normal. */
  lemma AvailableMeans(l: Limits, states: seq<Machine>, steps: seq<Step>, k: nat)
    requires IsRun(l, states, steps) && k < |states| && states[k].agent.life == Available
    ensures states[k].agent.thermal == Normal
    ensures states[k].agent.active.None? && states[k].agent.schedule == InWindow
            <==> !(JobOverrun(l, states, steps, k))
  {
    GuardsHoldInEveryRun(l, states, steps, k);
    AvailableWithJobIff(l, states, steps, k);
  }

  // ---------------------------------------------------------------- one job at a time

  /** The offer is taken although a job is held. */
  predicate Replaces(m: Machine, step: Step) {
    step.JobOffer? && m.agent.active.Some? && Claimable(m.agent, step.offer, step.now)
  }

  /** What an offer must pass besides the agent's life-cycle state. */
  predicate Passes(s: State, offer: Offer, now: Time) {
    && now <= offer.leaseExpiresAt && offer.wellFormed && !s.pauseRequested && s.schedule == InWindow
    && s.runtime.model == offer.model && s.runtime.modelHash != "" && s.runtime.runtimeHash != ""
       && s.runtime.baseURL != ""
  }

  /** Exactly when an offer replaces a job that is held. */
  lemma ReplacesIff(l: Limits, states: seq<Machine>, steps: seq<Step>, k: nat)
    requires IsRun(l, states, steps) && k < |steps|
    ensures Replaces(states[k], steps[k]) <==>
            (&& steps[k].JobOffer? && Passes(states[k].agent, steps[k].offer, steps[k].now)
             && JobOverrun(l, states, steps, k))
  {
    AvailableWithJobIff(l, states, steps, k);
    GuardsHoldInEveryRun(l, states, steps, k);
  }

  ghost predicate NeverReplaced(states: seq<Machine>, steps: seq<Step>, k: nat)
    requires k < |states| == |steps| + 1
  {
    forall n | 0 <= n < k :: !Replaces(states[n], steps[n])
  }

  /** Up to the first replacement the job held is the one being worked on. */
  lemma {:induction false} HeldIsRunning(l: Limits, states: seq<Machine>, steps: seq<Step>, k: nat)
    requires IsRun(l, states, steps) && k < |states| && NeverReplaced(states, steps, k)
    ensures states[k].running == if states[k].agent.active.Some? then 1 else 0
  {
    if k > 0 {
      HeldIsRunning(l, states, steps, k - 1);
      assert StepAt(l, states, steps, k - 1);
    }
  }

  ghost predicate OneAtMost(states: seq<Machine>, k: nat)
    requires k < |states|
  {
    forall n | 0 <= n <= k :: states[n].running <= 1
  }

  lemma {:induction false} OneUnlessReplaced(l: Limits, states: seq<Machine>, steps: seq<Step>, k: nat)
    requires IsRun(l, states, steps) && k < |states| && NeverReplaced(states, steps, k)
    ensures OneAtMost(states, k)
  {
    HeldIsRunning(l, states, steps, k);
    if k > 0 {
      OneUnlessReplaced(l, states, steps, k - 1);
    }
  }

  /** At most one job is ever worked on at a time exactly as long as no offer replaces a job that is held. */
  lemma OneJobIff(l: Limits, states: seq<Machine>, steps: seq<Step>, k: nat)
    requires IsRun(l, states, steps) && k < |states|
    ensures OneAtMost(states, k) <==> NeverReplaced(states, steps, k)
  {
    if NeverReplaced(states, steps, k) {
      OneUnlessReplaced(l, states, steps, k);
    } else {
      var n :| 0 <= n < k && Replaces(states[n], steps[n]);
      assert StepAt(l, states, steps, n);
      GuardsHoldInEveryRun(l, states, steps, n);
      assert states[n + 1].running > 1;
    }
  }

  /** The job held changes only when a job ends or an unpaused agent takes an offer. */
  lemma JobChangesOnlyBy(l: Limits, states: seq<Machine>, steps: seq<Step>, k: nat)
    requires IsRun(l, states, steps) && k < |steps| && states[k + 1].agent.active != states[k].agent.active
    ensures (steps[k].JobOver? && states[k + 1].agent.active.None?)
            || (steps[k].JobOffer? && !states[k].agent.pauseRequested && states[k].agent.life == Available
                && (states[k].agent.active.None? || JobOverrun(l, states, steps, k))
                && states[k + 1].agent.active == Some(steps[k].offer.job))
  {
    assert StepAt(l, states, steps, k);
    AvailableWithJobIff(l, states, steps, k);
  }

  // ---------------------------------------------------------------- instances

  /** One step more. */
  lemma Extended(l: Limits, states: seq<Machine>, steps: seq<Step>, step: Step) returns (states': seq<Machine>,
                 steps': seq<Step>)
    requires IsRun(l, states, steps) && Possible(l, states[|steps|], step)
    ensures states' == states + [Next(l, states[|steps|], step)] && steps' == steps + [step]
    ensures IsRun(l, states', steps')
  {
    states', steps' := states + [Next(l, states[|steps|], step)], steps + [step];
    forall k: nat | k < |steps'| ensures StepAt(l, states', steps', k) {
      assert k < |steps| ==> StepAt(l, states, steps, k);
    }
  }

  const RUNTIME := Runtime("m", "h", "r", "u")
  const READY := State(Available, None, false, None, InWindow, Normal, RUNTIME)

  /** Start-up as it should be. */
  lemma Started(l: Limits) returns (states: seq<Machine>, steps: seq<Step>)
    ensures IsRun(l, states, steps) && |steps| == 4 && states[4] == Machine(READY, Serving, [], 0)
  {
    states, steps := [START], [];
    states, steps := Extended(l, states, steps, Boot(None));
    states, steps := Extended(l, states, steps, Boot(None));
    states, steps := Extended(l, states, steps, Boot(Some(RUNTIME)));
    states, steps := Extended(l, states, steps, Boot(None));
  }

  /** Start-up does not look at the pause request: a pause that arrives in between is overrun. */
  lemma AvailableWhilePaused(l: Limits, now: Time) returns (states: seq<Machine>, steps: seq<Step>)
    ensures IsRun(l, states, steps) && |steps| == 5 && forall n | 0 <= n < 5 :: !steps[n].ResumeBegins?
    ensures states[5].agent.life == Available && states[5].agent.pauseRequested
  {
    states, steps := [START], [];
    states, steps := Extended(l, states, steps, Boot(None));
    states, steps := Extended(l, states, steps, PauseNow(now));
    states, steps := Extended(l, states, steps, Boot(None));
    states, steps := Extended(l, states, steps, Boot(Some(RUNTIME)));
    states, steps := Extended(l, states, steps, Boot(None));
  }

  /**
   Nor does it when a resume, begun before the pause, fails before the first transition: start-up goes
   through all the same.
   */
  lemma FailedResumeAtStart(l: Limits, now: Time) returns (states: seq<Machine>, steps: seq<Step>)
    ensures IsRun(l, states, steps) && |steps| == 7 && steps[..3] == [ResumeBegins, PauseNow(now), ResumeLoads(0, None)]
    ensures states[7].agent.life == Available && states[7].agent.pauseRequested && states[7].resumes == [Over]
  {
    states, steps := FailedFirst(l, now);
    states, steps := Extended(l, states, steps, Boot(None));
    states, steps := Extended(l, states, steps, Boot(None));
    states, steps := Extended(l, states, steps, Boot(Some(RUNTIME)));
    states, steps := Extended(l, states, steps, Boot(None));
  }

  lemma FailedFirst(l: Limits, now: Time) returns (states: seq<Machine>, steps: seq<Step>)
    ensures IsRun(l, states, steps) && steps == [ResumeBegins, PauseNow(now), ResumeLoads(0, None)]
    ensures states[3] == Machine(State(Errored, None, true, Some(now), InWindow, Normal, NO_RUNTIME), Fresh, [Over], 0)
  {
    states, steps := [START], [];
    states, steps := Extended(l, states, steps, ResumeBegins);
    states, steps := Extended(l, states, steps, PauseNow(now));
    states, steps := Extended(l, states, steps, ResumeLoads(0, None));
  }

  /** The paused agent's runtime has been unloaded. */
  lemma Unloaded(l: Limits) returns (states: seq<Machine>, steps: seq<Step>)
    requires l.pauseIdleTimeout > 0
    ensures IsRun(l, states, steps) && |steps| == 6
    ensures states[6] == Machine(State(Paused, None, true, Some(0), InWindow, Normal, NO_RUNTIME), Serving, [], 0)
  {
    states, steps := Started(l);
    states, steps := Extended(l, states, steps, PauseNow(0));
    states, steps := Extended(l, states, steps, Heartbeat(l.pauseIdleTimeout, InWindow, 0, true));
  }

  /** A pause that comes while a resume loads the runtime again is overrun when the resume ends. */
  lemma PausedWhileLoading(l: Limits) returns (states: seq<Machine>, steps: seq<Step>)
    requires l.pauseIdleTimeout > 0
    ensures IsRun(l, states, steps) && |steps| == 10
    ensures steps[6..] == [ResumeBegins, PauseNow(0), ResumeLoads(0, Some(RUNTIME)), ResumeEnds(0)]
    ensures states[8].agent.life == Paused && states[10].agent.life == Available && states[10].agent.pauseRequested
  {
    states, steps := Unloaded(l);
    states, steps := Extended(l, states, steps, ResumeBegins);
    states, steps := Extended(l, states, steps, PauseNow(0));
    states, steps := Extended(l, states, steps, ResumeLoads(0, Some(RUNTIME)));
    states, steps := Extended(l, states, steps, ResumeEnds(0));
  }

  /** An offer for the loaded model. */
  function Work(job: JobName): Offer {
    Offer(job, "m", 0, true)
  }

  /** An offer taken between the sections of a resume: when that ends the agent is available and holds the job. */
  lemma ClaimedWhileResuming(l: Limits, job: JobName) returns (states: seq<Machine>, steps: seq<Step>)
    ensures IsRun(l, states, steps) && |steps| == 7
    ensures steps[4..] == [ResumeBegins, JobOffer(Work(job), 0), ResumeEnds(0)]
    ensures states[7] == Machine(READY.(active := Some(job)), Serving, [Over], 1)
  {
    states, steps := Started(l);
    states, steps := Extended(l, states, steps, ResumeBegins);
    states, steps := Extended(l, states, steps, JobOffer(Work(job), 0));
    states, steps := Extended(l, states, steps, ResumeEnds(0));
  }

  /** A second offer, from a session that took the place of the first one's, is then taken as well: two jobs run. */
  lemma TwoJobsAtOnce(l: Limits, job: JobName, other: JobName) returns (states: seq<Machine>, steps: seq<Step>)
    ensures IsRun(l, states, steps) && |steps| == 9
    ensures steps[7..] == [Heartbeat(0, InWindow, 0, true), JobOffer(Work(other), 0)]
    ensures states[8].agent.active == Some(job) && states[9].agent.active == Some(other) && states[9].running == 2
  {
    states, steps := ClaimedWhileResuming(l, job);
    states, steps := Extended(l, states, steps, Heartbeat(0, InWindow, 0, true));
    states, steps := Extended(l, states, steps, JobOffer(Work(other), 0));
  }

  /** And a heartbeat outside the window leaves it available. */
  lemma AvailableOutOfWindow(l: Limits, job: JobName) returns (states: seq<Machine>, steps: seq<Step>)
    ensures IsRun(l, states, steps) && |steps| == 8
    ensures states[8].agent.life == Available && states[8].agent.schedule == OutOfWindow
  {
    states, steps := ClaimedWhileResuming(l, job);
    states, steps := Extended(l, states, steps, Heartbeat(0, OutOfWindow, 0, true));
  }
}
