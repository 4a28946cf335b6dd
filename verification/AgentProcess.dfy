/**
 The agent as it runs: fields updated in place under one mutex, one method per section. Every method
 takes the fields from one state to exactly the state the agent model gives.
 */
module AgentProcess {
  import opened Options
  import opened Agent

  class Process {
    const limits: Limits
    var life: Life
    var active: Option<JobName>
    var pauseRequested: bool
    var pausedAt: Option<Time>
    var schedule: Schedule
    var thermal: Thermal
    var runtime: Runtime

    ghost function View(): State
      reads this
    {
      State(life, active, pauseRequested, pausedAt, schedule, thermal, runtime)
    }

    constructor (limits: Limits)
      ensures View() == FRESH && this.limits == limits
    {
      this.limits := limits;
      life, active, pauseRequested, pausedAt := Offline, None, false, None;
      schedule, thermal, runtime := InWindow, Normal, NO_RUNTIME;
    }

    method ForceState(to: Life)
      modifies this`life
      ensures View() == Force(old(View()), to)
    {
      if life == to { return; }
      if CanTransition(life, to) {
        life := to;
        return;
      }
      if to == Paused || to == Draining || to == Idle || to == Available {
        life := to;
      }
    }

    method TransitionTo(to: Life) returns (ok: bool)
      modifies this`life
      ensures ok <==> CanTransition(old(life), to)
      ensures View() == Transition(old(View()), to)
    {
      if !CanTransition(life, to) { return false; }
      life := to;
      ok := true;
    }

    method ReadThermal(temp: int)
      modifies this`thermal
      ensures View() == old(View()).(thermal := NextThermal(limits, old(thermal), temp))
    {
      if temp <= 0 || limits.maxTemp <= 0 {
        thermal := Normal;
        return;
      }
      var recoverAt := limits.maxTemp - limits.hysteresis;
      if recoverAt < 0 { recoverAt := 0; }
      if thermal == Warm || thermal == HardLimit {
        if temp <= recoverAt {
          thermal := Normal;
        } else if temp >= limits.hardTemp {
          thermal := HardLimit;
        } else {
          thermal := Warm;
        }
      } else if temp >= limits.hardTemp {
        thermal := HardLimit;
      } else if temp > limits.maxTemp {
        thermal := Warm;
      } else {
        thermal := Normal;
      }
    }

    /** The switch over pause, temperature and schedule. */
    method ApplyGuards()
      modifies this`life
      ensures View() == Guarded(old(View()))
    {
      if pauseRequested && active.Some? {
        ForceState(Draining);
      } else if pauseRequested {
        ForceState(Paused);
      } else if thermal == HardLimit || thermal == Warm {
        if active.Some? || life == Busy {
          ForceState(Draining);
        } else if life == Available || life == Preparing || life == Draining {
          ForceState(Idle);
        }
      } else if schedule == OutOfWindow && active.None? {
        if life == Available || life == Preparing {
          ForceState(Idle);
        }
      } else if schedule == InWindow && thermal == Normal && active.None? {
        if (life == Idle || life == Draining) && RuntimeReady(runtime) {
          ForceState(Available);
        }
      }
    }

    method EvaluateGuards(now: Time, current: Schedule, temp: int, closable: bool)
      modifies this`life, this`schedule, this`thermal, this`runtime
      ensures View() == Evaluate(limits, old(View()), now, current, temp, closable)
    {
      schedule := current;
      ReadThermal(temp);
      ApplyGuards();
      if life == Paused && active.None? && pausedAt.Some? && limits.pauseIdleTimeout > 0
         && now >= pausedAt.value + limits.pauseIdleTimeout && closable && runtime.baseURL != "" {
        runtime := NO_RUNTIME;
      }
    }

    method ClaimJob(offer: Offer, now: Time) returns (claimed: bool)
      modifies this`life, this`active
      ensures claimed <==> Claimable(old(View()), offer, now)
      ensures View() == Claim(old(View()), offer, now)
    {
      if now > offer.leaseExpiresAt || !offer.wellFormed { return false; }
      if life != Available || pauseRequested { return false; }
      if schedule == OutOfWindow || thermal != Normal { return false; }
      if runtime.model != offer.model || runtime.modelHash == "" || runtime.runtimeHash == "" { return false; }
      if runtime.baseURL == "" || !CanTransition(life, Busy) { return false; }
      active := Some(offer.job);
      life := Busy;
      claimed := true;
    }

    method ReleaseJob(now: Time)
      modifies this`life, this`active, this`pausedAt
      ensures View() == Release(old(View()), now)
    {
      active := None;
      if pauseRequested {
        pausedAt := Some(now);
        ForceState(Paused);
      } else if schedule == OutOfWindow || thermal != Normal {
        ForceState(Idle);
      } else if life == Busy || life == Draining {
        ForceState(Available);
      }
    }

    /** One poll of the job's thermal monitor; it acts only on a reading at or above the hard limit. */
    method MonitorJobThermal(temp: int) returns (stop: bool)
      modifies this`life, this`thermal
      ensures stop <==> 0 < temp && limits.hardTemp <= temp
      ensures View() == if stop then Overheated(old(View())) else old(View())
    {
      if temp <= 0 || temp < limits.hardTemp { return false; }
      thermal := HardLimit;
      ForceState(Draining);
      stop := true;
    }

    method HandlePause(now: Time)
      modifies this`life, this`pauseRequested, this`pausedAt
      ensures View() == Pause(old(View()), now)
    {
      pauseRequested := true;
      var target := Paused;
      if active.Some? {
        target := Draining;
      } else {
        pausedAt := Some(now);
      }
      if CanTransition(life, target) {
        life := target;
      } else {
        ForceState(target);
      }
    }

    /** The first section of a resume; what remains to be done is returned. */
    method BeginResume() returns (stage: Stage)
      modifies this`life, this`pauseRequested, this`pausedAt
      ensures View() == Woken(old(View())) && stage == StageAfter(old(View()))
    {
      pauseRequested, pausedAt := false, None;
      var needsPrepare := runtime.model == "" || runtime.baseURL == "";
      if active.Some? { return Over; }
      if needsPrepare {
        ForceState(Preparing);
        return AwaitsRuntime;
      }
      stage := AwaitsEnd;
    }

    /** The section after the runtime was prepared, or was not. */
    method RuntimePrepared(prepared: Option<Runtime>)
      modifies this`life, this`runtime
      ensures View() == Reloaded(old(View()), prepared)
    {
      if prepared.None? {
        var _ := TransitionTo(Errored);
      } else {
        runtime := prepared.value;
      }
    }

    /** The last section of a resume. */
    method EndResume()
      modifies this`life
      ensures View() == BackToWork(old(View()))
    {
      if schedule == OutOfWindow || thermal != Normal {
        ForceState(Idle);
      } else {
        ForceState(Available);
      }
    }
  }
}
