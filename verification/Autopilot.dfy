/** One pass of measure, compare and decide, on values. */
module TuningPass {
  import opened Domain
  import opened Runner
  import opened Search
  import opened Evaluator

  /** Where measurements come from. */
  datatype Lab = Lab(replies: Replies, modelId: string, prompts: Prompts)

  /** The benchmark of `config` by an adapter that has served `at` calls; an empty config passes no options. */
  function Measure(lab: Lab, at: nat, config: Config): Candidate {
    Candidate(config, Measurement(Trial(lab.replies, at, lab.modelId, lab.prompts, OptionsFor(config))))
  }

  function OptionsFor(config: Config): Option<Config> {
    if config == map[] then None else Some(config)
  }

  /** The candidate loop: `results` in order, `measured` only those measured anew, `calls` the adapter's count after. */
  datatype Sweep = Sweep(results: seq<Candidate>, measured: seq<Candidate>, calls: nat)

  function SweepOf(lab: Lab, at: nat, baseline: Candidate, configs: seq<Config>): Sweep {
    if configs == [] then Sweep([], [], at)
    else
      var before := SweepOf(lab, at, baseline, configs[..|configs| - 1]);
      var config := configs[|configs| - 1];
      if config == baseline.config then before.(results := before.results + [baseline])
      else
        var c := Measure(lab, before.calls, config);
        Sweep(before.results + [c], before.measured + [c], before.calls + c.benchmark.samplesAttempted)
  }

  function Decide(modelId: string, baseline: Candidate, candidates: seq<Candidate>): Session {
    match PickBest(candidates)
    case None => Session(modelId, baseline, candidates, baseline, KeptBaseline)
    case Some(best) =>
      if best.config != baseline.config && Improves(best, baseline)
      then Session(modelId, baseline, candidates, best, AcceptedNew)
      else Session(modelId, baseline, candidates, baseline, KeptBaseline)
  }

  datatype Tuned = Tuned(session: Session, measured: seq<Candidate>, calls: nat)

  function TuneFrom(lab: Lab, at: nat, config: Config): Tuned {
    var baseline := Measure(lab, at, config);
    var sweep := SweepOf(lab, at + baseline.benchmark.samplesAttempted, baseline, GenerateCandidates(config));
    Tuned(Decide(lab.modelId, baseline, sweep.results), [baseline] + sweep.measured, sweep.calls)
  }
}

/** The autopilot generator on values: its state between two yields, and one resumption. */
module Autopilot {
  import opened Domain
  import opened Tables
  import opened StorageInterface
  import opened Runner
  import opened ConfigBuilder
  import opened RollbackPolicy
  import opened TuningPass

  const DAY_SECONDS := 86400.0

  /** How far the engine had already read its tapes when the loop was called. */
  datatype Position = Position(calls: nat, checks: nat, scans: nat, audits: nat)

  /** Everything the loop does not control, each as an arbitrary tape read in order, and the call's arguments. */
  datatype World = World(
    lab: Lab,
    reachable: nat -> bool,
    hardware: nat -> HardwareProfile,
    clock: nat -> real,
    auditRaises: nat -> bool,
    outside: nat -> seq<Request>,
    modelSpec: Option<ModelSpec>,
    intervalSeconds: real,
    maxIterations: Option<int>,
    maxAdjustmentsPerDay: Option<int>,
    origin: Position)

  datatype Status = Running | Returned | RuntimeUnavailable

  datatype ChangeKind = Acceptance | Reversion

  /**
   * One change of the active config, the time recorded for it, and how many measurements had been made when it was
   * saved.
   */
  datatype Change = Change(kind: ChangeKind, at: real, from: Config, to: Config, seen: nat)

  datatype State = State(
    store: Store,
    // positions on the world's tapes
    calls: nat, checks: nat, scans: nat, ticks: nat, audits: nat,
    // locals of the loop
    iteration: nat, history: seq<Candidate>, adjustmentTimestamps: seq<real>,
    // what it has shown the outside
    sessions: seq<Session>, sleeps: seq<real>, status: Status,
    // kept for stating properties; the loop never reads these
    measured: seq<Candidate>, changes: seq<Change>)
  {
    function Active(modelId: string): Option<Config> {
      store.Active(modelId)
    }
  }

  function Start(w: World, store: Store, initialHistory: seq<Candidate>): State {
    State(store, w.origin.calls, w.origin.checks, w.origin.scans, 0, w.origin.audits,
      0, initialHistory, [], [], [], Running, [], [])
  }

  function GoesOn(w: World, iteration: nat): bool {
    w.maxIterations.None? || iteration < w.maxIterations.value
  }

  /** How many timestamps are at or after the cutoff. */
  function CountSince(timestamps: seq<real>, cutoff: real): nat {
    if timestamps == [] then 0
    else
      CountSince(timestamps[..|timestamps| - 1], cutoff)
      + if cutoff <= timestamps[|timestamps| - 1] then 1 else 0
  }

  predicate CapReached(w: World, s: State) {
    w.maxAdjustmentsPerDay.Some?
    && w.maxAdjustmentsPerDay.value <= CountSince(s.adjustmentTimestamps, w.clock(s.ticks) - DAY_SECONDS)
  }

  /** Reading the clock for the rate check; with no cap it is not read. */
  function AfterRateCheck(w: World, s: State): State {
    if w.maxAdjustmentsPerDay.Some? then s.(ticks := s.ticks + 1) else s
  }

  function Save(w: World, s: State, config: Config): State {
    s.(store := After(s.store, Request.SaveTunedConfig(w.lab.modelId, Tuning(config, false))))
  }

  /** The audit write is best effort: when it raises, nothing is stored and the loop goes on. */
  function Log(w: World, s: State, details: Details): State {
    if w.auditRaises(s.audits) then s.(audits := s.audits + 1)
    else s.(audits := s.audits + 1, store := After(s.store, Request.SaveAutopilotEvent(w.lab.modelId, details)))
  }

  function RecordChange(w: World, s: State, kind: ChangeKind, from: Config, to: Config): State {
    var now := w.clock(s.ticks);
    s.(ticks := s.ticks + 1,
       adjustmentTimestamps := s.adjustmentTimestamps + [now],
       changes := s.changes + [Change(kind, now, from, to, |s.measured|)])
  }

  function Yield(s: State, session: Session): State {
    s.(sessions := s.sessions + [session])
  }

  function Placeholder(config: Config): Candidate {
    Candidate(config, Benchmark(config, None, None, None, false, None, 0, 0))
  }

  function LockedStep(w: World, s: State, config: Config): State {
    var p := Placeholder(config);
    Yield(Log(w, s, Details.Lock(config)), Session(w.lab.modelId, p, [], p, Locked)).(status := Returned)
  }

  function RollbackStep(w: World, s: State, probe: Candidate, target: Config): State {
    var changed := RecordChange(w, Save(w, s, target), Reversion, probe.config, target);
    Yield(Log(w, changed, Details.Rollback(probe.config, target)),
      Session(w.lab.modelId, probe, s.history, Candidate(target, probe.benchmark), RolledBack))
  }

  function LimitStep(w: World, s: State, session: Session): State {
    var logged := Log(w, s, Details.RateLimit(session.winner.config));
    Yield(logged.(history := s.history + [session.baseline]),
      session.(winner := session.baseline, outcome := Outcome.RateLimited))
  }

  function AcceptStep(w: World, s: State, session: Session): State {
    var remembered := s.(history := s.history + [session.winner]);
    var applied := Log(w, Save(w, remembered, session.winner.config), Details.Adjust(session.winner.config));
    Yield(RecordChange(w, applied, Acceptance, session.baseline.config, session.winner.config), session)
  }

  function KeepStep(s: State, session: Session): State {
    Yield(s.(history := s.history + [session.winner]), session)
  }

  function Settle(w: World, s: State, session: Session): State {
    if session.outcome != AcceptedNew then KeepStep(s, session)
    else if CapReached(w, s) then LimitStep(w, AfterRateCheck(w, s), session)
    else AcceptStep(w, AfterRateCheck(w, s), session)
  }

  function DefaultBaseline(spec: Option<ModelSpec>, hw: HardwareProfile): Config {
    match spec case None => map[] case Some(model) => BuildRunConfig(model, hw)
  }

  /** The baseline of a pass: the stored config, or else the default for the hardware as scanned now. */
  function StartingConfig(stored: Option<Config>, spec: Option<ModelSpec>, hw: HardwareProfile): Config {
    match stored case Some(c) => c case None => DefaultBaseline(spec, hw)
  }

  function PassBaseline(w: World, s: State, stored: Option<Config>): Config {
    StartingConfig(stored, w.modelSpec, w.hardware(s.scans))
  }

  function AfterScan(w: World, s: State, stored: Option<Config>): State {
    if stored.None? && w.modelSpec.Some? then s.(scans := s.scans + 1) else s
  }

  function AfterTuning(w: World, s: State, stored: Option<Config>): State {
    var t := TuneFrom(w.lab, s.calls, PassBaseline(w, s, stored));
    AfterScan(w, s, stored).(checks := s.checks + 1, calls := t.calls, measured := s.measured + t.measured)
  }

  function AfterAttempt(w: World, s: State, stored: Option<Config>): State {
    if w.reachable(s.checks) then AfterTuning(w, s, stored) else s.(checks := s.checks + 1)
  }

  function PassSession(w: World, s: State, stored: Option<Config>): Session {
    TuneFrom(w.lab, s.calls, PassBaseline(w, s, stored)).session
  }

  function TuneStep(w: World, s: State, stored: Option<Config>): State {
    var t := AfterAttempt(w, s, stored);
    if w.reachable(s.checks) then Settle(w, t, PassSession(w, s, stored))
    else t.(status := RuntimeUnavailable)
  }

  function AfterProbe(s: State, probe: Candidate): State {
    s.(calls := s.calls + probe.benchmark.samplesAttempted, measured := s.measured + [probe])
  }

  function ActiveStep(w: World, s: State, config: Config): State {
    if s.history == [] then TuneStep(w, s, Some(config))
    else
      var probe := Measure(w.lab, s.calls, config);
      var target := RollbackTarget(probe, s.history);
      if NeedsRollback(probe) && target.Some? then RollbackStep(w, AfterProbe(s, probe), probe, target.value)
      else TuneStep(w, AfterProbe(s, probe), Some(config))
  }

  /** The loop body up to its yield. */
  function Body(w: World, s: State): State {
    match Latest(s.store.configs, w.lab.modelId)
    case None => TuneStep(w, s, None)
    case Some(row) =>
      if row.body.isLocked then LockedStep(w, s, row.body.config) else ActiveStep(w, s, row.body.config)
  }

  /** What others did to the store while the generator was suspended at its latest yield. */
  function AfterOutside(w: World, s: State): State
    requires s.sessions != []
  {
    s.(store := AfterAll(s.store, w.outside(|s.sessions| - 1)))
  }

  /** From the yield back to the top of the loop: count the iteration, sleep if another one follows. */
  function Resume(w: World, s: State): State {
    if s.sessions == [] then s
    else
      var t := AfterOutside(w, s).(iteration := s.iteration + 1);
      if GoesOn(w, t.iteration) then t.(sleeps := s.sleeps + [w.intervalSeconds]) else t
  }

  /** One next() on the generator; a generator that has ended stays as it is. */
  function Next(w: World, s: State): State {
    if s.status != Running then s
    else
      var t := Resume(w, s);
      if GoesOn(w, t.iteration) then Body(w, t) else t.(status := Returned)
  }

  function Run(w: World, s: State, n: nat): State {
    if n == 0 then s else Next(w, Run(w, s, n - 1))
  }
}
