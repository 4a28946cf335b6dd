/**
 The node agent: its life-cycle states, and what pausing, resuming, guard evaluation, claiming and
 releasing a job and the thermal monitor do to the fields they share. Each mutex section is one step:
 start-up and a resume have several, and anything can come in between.
 */
module Agent {
  import opened Options

  type Time = int
  type JobName = string

  datatype Life =
    | Unregistered | Registering | Offline | Starting | Benchmarking | Idle | Preparing | Available | Busy | Draining
    | Paused | Errored | Updating

  function LegalFrom(from: Life): set<Life> {
    match from
    case Unregistered => {Registering}
    case Registering => {Offline, Errored}
    case Offline => {Starting, Updating, Errored}
    case Starting => {Benchmarking, Idle, Preparing, Paused, Draining, Errored, Updating, Offline}
    case Benchmarking => {Idle, Preparing, Paused, Draining, Errored, Updating, Offline}
    case Idle => {Preparing, Paused, Draining, Errored, Updating, Offline}
    case Preparing => {Available, Paused, Draining, Errored, Updating, Offline}
    case Available => {Busy, Draining, Paused, Errored, Updating, Offline}
    case Busy => {Available, Draining, Errored, Updating, Offline}
    case Draining => {Available, Paused, Errored, Updating, Offline}
    case Paused => {Idle, Preparing, Draining, Errored, Updating, Offline}
    case Errored => {Offline, Starting, Updating}
    case Updating => {Starting, Offline, Errored}
  }

  predicate CanTransition(from: Life, to: Life) {
    from == to || to in LegalFrom(from)
  }

  /** Guards may force four of the states from anywhere; any other needs a legal transition. */
  function Forced(from: Life, to: Life): (r: Life)
    ensures r == to <==> CanTransition(from, to) || to in {Paused, Draining, Idle, Available}
    ensures r == to || r == from
  {
    if CanTransition(from, to) || to == Paused || to == Draining || to == Idle || to == Available then to else from
  }

  // ---------------------------------------------------------------- thermal hysteresis

  datatype Thermal = Normal | Warm | HardLimit
  datatype Limits = Limits(maxTemp: int, hardTemp: int, hysteresis: int, pauseIdleTimeout: int)

  function RecoverAt(l: Limits): int {
    if l.maxTemp - l.hysteresis < 0 then 0 else l.maxTemp - l.hysteresis
  }

  function NextThermal(l: Limits, thermal: Thermal, temp: int): Thermal {
    if temp <= 0 || l.maxTemp <= 0 then Normal
    else if thermal == Normal then
      if temp >= l.hardTemp then HardLimit else if temp > l.maxTemp then Warm else Normal
    else
      if temp <= RecoverAt(l) then Normal else if temp >= l.hardTemp then HardLimit else Warm
  }

  function AfterReadings(l: Limits, readings: seq<int>): Thermal {
    if readings == [] then Normal
    else NextThermal(l, AfterReadings(l, readings[..|readings| - 1]), readings[|readings| - 1])
  }

  // ---------------------------------------------------------------- the agent's fields and steps

  datatype Schedule = InWindow | OutOfWindow
  /** The runtime's identity; empty strings until it is prepared. */
  datatype Runtime = Runtime(model: string, modelHash: string, runtimeHash: string, baseURL: string)

  const NO_RUNTIME := Runtime("", "", "", "")

  datatype State = State(
    life: Life,
    active: Option<JobName>,
    pauseRequested: bool,
    pausedAt: Option<Time>,
    schedule: Schedule,
    thermal: Thermal,
    runtime: Runtime)

  const FRESH := State(Offline, None, false, None, InWindow, Normal, NO_RUNTIME)

  function Force(s: State, to: Life): State {
    s.(life := Forced(s.life, to))
  }

  /** A checked transition, or nothing. */
  function Transition(s: State, to: Life): State {
    if CanTransition(s.life, to) then s.(life := to) else s
  }

  predicate RuntimeReady(r: Runtime) {
    r.model != "" && r.modelHash != "" && r.runtimeHash != "" && r.baseURL != ""
  }

  function Blocked(s: State): State {
    if s.active.Some? || s.life == Busy then Force(s, Draining)
    else if s.life == Available || s.life == Preparing || s.life == Draining then Force(s, Idle)
    else s
  }

  function Guarded(s: State): State {
    if s.pauseRequested then Force(s, if s.active.Some? then Draining else Paused)
    else if s.thermal != Normal then Blocked(s)
    else if s.active.Some? then s
    else if s.schedule == OutOfWindow then
      if s.life == Available || s.life == Preparing then Force(s, Idle) else s
    else
      if (s.life == Idle || s.life == Draining) && RuntimeReady(s.runtime) then Force(s, Available) else s
  }

  function UnloadWhenIdle(l: Limits, s: State, now: Time, closable: bool): State {
    if s.life == Paused && s.active.None? && s.pausedAt.Some? && l.pauseIdleTimeout > 0
       && now >= s.pausedAt.value + l.pauseIdleTimeout && closable && s.runtime.baseURL != ""
    then s.(runtime := NO_RUNTIME)
    else s
  }

  function Evaluate(l: Limits, s: State, now: Time, schedule: Schedule, temp: int, closable: bool): State {
    UnloadWhenIdle(l, Guarded(s.(schedule := schedule, thermal := NextThermal(l, s.thermal, temp))), now, closable)
  }

  datatype Offer = Offer(job: JobName, model: string, leaseExpiresAt: Time, wellFormed: bool)

  predicate Claimable(s: State, offer: Offer, now: Time) {
    && now <= offer.leaseExpiresAt && offer.wellFormed
    && s.life == Available && !s.pauseRequested
    && s.schedule == InWindow && s.thermal == Normal
    && s.runtime.model == offer.model && s.runtime.modelHash != "" && s.runtime.runtimeHash != ""
       && s.runtime.baseURL != ""
  }

  function Claim(s: State, offer: Offer, now: Time): State {
    if Claimable(s, offer, now) then s.(active := Some(offer.job), life := Busy) else s
  }

  function Release(s: State, now: Time): State {
    var freed := s.(active := None);
    if s.pauseRequested then Force(freed.(pausedAt := Some(now)), Paused)
    else if s.schedule == OutOfWindow || s.thermal != Normal then Force(freed, Idle)
    else if s.life == Busy || s.life == Draining then Force(freed, Available)
    else freed
  }

  /** The monitor's section, entered only for a reading at or above the hard limit. */
  function Overheated(s: State): State {
    Force(s.(thermal := HardLimit), Draining)
  }

  function Pause(s: State, now: Time): State {
    if s.active.Some? then Force(s.(pauseRequested := true), Draining)
    else Force(s.(pauseRequested := true, pausedAt := Some(now)), Paused)
  }

  /** Where a resume stands between its sections. */
  datatype Stage = AwaitsRuntime | AwaitsEnd | Over

  /** The first section: with a job held the resume is over; otherwise the runtime may have to be prepared. */
  function StageAfter(s: State): Stage {
    if s.active.Some? then Over
    else if s.runtime.model == "" || s.runtime.baseURL == "" then AwaitsRuntime
    else AwaitsEnd
  }

  function Woken(s: State): State {
    var woken := s.(pauseRequested := false, pausedAt := None);
    if StageAfter(s) == AwaitsRuntime then Force(woken, Preparing) else woken
  }

  /** What preparing the runtime came to; None when it failed. */
  function Reloaded(s: State, prepared: Option<Runtime>): State {
    if prepared.None? then Transition(s, Errored) else s.(runtime := prepared.value)
  }

  /** The last section, which looks neither at the pause request nor at the job. */
  function BackToWork(s: State): State {
    Force(s, if Clear(s) then Available else Idle)
  }

  /** In the window and thermally normal when last evaluated. */
  predicate Clear(s: State) {
    s.schedule == InWindow && s.thermal == Normal
  }

  // ---------------------------------------------------------------- start-up and runs

  /** How far the start-up sequence has come. */
  datatype Phase = Fresh | Begun | Loading | Loaded | Serving | Ended

  /** The agent, how far start-up is, the resumes in the order they began, and the jobs being worked on. */
  datatype Machine = Machine(agent: State, phase: Phase, resumes: seq<Stage>, running: nat)

  const START := Machine(FRESH, Fresh, [], 0)

  datatype Step =
    | Boot(prepared: Option<Runtime>)
    | Shutdown
    | PauseNow(now: Time)
    | ResumeBegins
    | ResumeLoads(call: nat, prepared: Option<Runtime>)
    | ResumeEnds(call: nat)
    | Heartbeat(now: Time, schedule: Schedule, temp: int, closable: bool)
    | JobOffer(offer: Offer, now: Time)
    | JobOver(now: Time)
    | MonitorReads(temp: int)

  function At(m: Machine, s: State, phase: Phase): Machine {
    m.(agent := s, phase := phase)
  }

  /** The next start-up transition; a refused one ends the run. */
  function BootStep(m: Machine, prepared: Option<Runtime>): Machine {
    var s := m.agent;
    match m.phase
    case Fresh => if CanTransition(s.life, Starting) then At(m, s.(life := Starting), Begun) else At(m, s, Ended)
    case Begun => if CanTransition(s.life, Preparing) then At(m, s.(life := Preparing), Loading) else At(m, s, Ended)
    case Loading =>
      if prepared.Some? then At(m, s.(runtime := prepared.value), Loaded) else At(m, Transition(s, Errored), Ended)
    case Loaded => if CanTransition(s.life, Available) then At(m, s.(life := Available), Serving) else At(m, s, Ended)
    case Serving => m
    case Ended => m
  }

  /** Sessions, and with them heartbeats, offers and jobs, exist once start-up is through. */
  predicate Possible(l: Limits, m: Machine, step: Step) {
    match step
    case Heartbeat(_, _, _, _) => m.phase == Serving || m.phase == Ended
    case JobOffer(_, _) => m.phase == Serving || m.phase == Ended
    case Shutdown => m.phase == Serving
    case JobOver(_) => m.running > 0
    case ResumeLoads(call, _) => call < |m.resumes| && m.resumes[call] == AwaitsRuntime
    case ResumeEnds(call) => call < |m.resumes| && m.resumes[call] == AwaitsEnd
    case MonitorReads(temp) => (m.phase == Serving || m.phase == Ended) && 0 < temp && l.hardTemp <= temp
    case _ => true
  }

  function Next(l: Limits, m: Machine, step: Step): Machine
    requires Possible(l, m, step)
  {
    match step
    case Boot(prepared) => BootStep(m, prepared)
    case Shutdown => At(m, Transition(m.agent, Offline), Ended)
    case PauseNow(now) => m.(agent := Pause(m.agent, now))
    case ResumeBegins => m.(agent := Woken(m.agent), resumes := m.resumes + [StageAfter(m.agent)])
    case ResumeLoads(call, prepared) =>
      m.(agent := Reloaded(m.agent, prepared), resumes := m.resumes[call := if prepared.Some? then AwaitsEnd else Over])
    case ResumeEnds(call) => m.(agent := BackToWork(m.agent), resumes := m.resumes[call := Over])
    case Heartbeat(now, schedule, temp, closable) => m.(agent := Evaluate(l, m.agent, now, schedule, temp, closable))
    case JobOffer(offer, now) =>
      m.(agent := Claim(m.agent, offer, now), running := m.running + if Claimable(m.agent, offer, now) then 1 else 0)
    case JobOver(now) => m.(agent := Release(m.agent, now), running := m.running - 1)
    case MonitorReads(_) => m.(agent := Overheated(m.agent))
  }

  ghost predicate IsRun(l: Limits, states: seq<Machine>, steps: seq<Step>) {
    && |states| == |steps| + 1
    && states[0] == START
    && forall k: nat | k < |steps| :: StepAt(l, states, steps, k)
  }

  ghost predicate StepAt(l: Limits, states: seq<Machine>, steps: seq<Step>, k: nat)
    requires |states| == |steps| + 1 && k < |steps|
  {
    Possible(l, states[k], steps[k]) && states[k + 1] == Next(l, states[k], steps[k])
  }
}
