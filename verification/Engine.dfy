/** The tuning engine and the autopilot generator as they run: objects whose fields change step by step. */
module Engine {
  import opened Domain
  import opened Tables
  import opened StorageInterface
  import opened MemoryStorage
  import opened Runner
  import opened Search
  import opened ConfigBuilder
  import opened Evaluator
  import opened RollbackPolicy
  import opened TuningPass
  import opened Autopilot

  class TuningEngine {
    const adapter: Adapter
    const storage: InMemoryStorage
    const prompts: Prompts
    const hardware: nat -> HardwareProfile
    const auditRaises: nat -> bool
    var scans: nat
    var audits: nat

    constructor (adapter: Adapter, storage: InMemoryStorage, prompts: Prompts,
                 hardware: nat -> HardwareProfile, auditRaises: nat -> bool)
      ensures this.adapter == adapter && this.storage == storage && this.prompts == prompts
      ensures this.hardware == hardware && this.auditRaises == auditRaises
      ensures scans == 0 && audits == 0
    {
      this.adapter, this.storage, this.prompts := adapter, storage, prompts;
      this.hardware, this.auditRaises := hardware, auditRaises;
      scans, audits := 0, 0;
    }

    ghost function LabFor(modelId: string): Lab {
      Lab(adapter.replies, modelId, prompts)
    }

    method DefaultBaselineConfig(modelSpec: Option<ModelSpec>) returns (config: Config)
      modifies this`scans
      ensures config == DefaultBaseline(modelSpec, hardware(old(scans)))
      ensures scans == old(scans) + if modelSpec.Some? then 1 else 0
    {
      match modelSpec
      case None =>
        config := map[];
      case Some(model) =>
        var hw := hardware(scans);
        scans := scans + 1;
        config := BuildRunConfig(model, hw);
    }

    /** Best effort: when the write raises, the event is lost and nothing else happens. */
    method LogEvent(modelId: string, details: Details)
      modifies this`audits, storage`autopilotEvents
      ensures audits == old(audits) + 1
      ensures storage.autopilotEvents
           == if auditRaises(old(audits)) then old(storage.autopilotEvents)
              else Insert(old(storage.autopilotEvents), modelId, details)
    {
      if !auditRaises(audits) {
        var _ := storage.SaveAutopilotEvent(modelId, details);
      }
      audits := audits + 1;
    }

    method Benchmarked(modelId: string, config: Config) returns (c: Candidate)
      modifies adapter`calls
      ensures c == Measure(LabFor(modelId), old(adapter.calls), config)
      ensures adapter.calls == old(adapter.calls) + c.benchmark.samplesAttempted
    {
      var b := RunBenchmark(adapter, modelId, prompts, OptionsFor(config));
      c := Candidate(config, b);
    }

    method MeasureCandidates(modelId: string, baseline: Candidate, configs: seq<Config>)
      returns (candidates: seq<Candidate>, ghost sweep: Sweep)
      modifies adapter`calls
      ensures sweep == SweepOf(LabFor(modelId), old(adapter.calls), baseline, configs)
      ensures candidates == sweep.results && adapter.calls == sweep.calls
    {
      candidates := [];
      ghost var measured := [];
      for i := 0 to |configs|
        invariant SweepOf(LabFor(modelId), old(adapter.calls), baseline, configs[..i])
               == Sweep(candidates, measured, adapter.calls)
      {
        assert configs[..i + 1][..i] == configs[..i];
        if configs[i] == baseline.config {
          candidates := candidates + [baseline];
        } else {
          var c := Benchmarked(modelId, configs[i]);
          candidates := candidates + [c];
          measured := measured + [c];
        }
      }
      assert configs[..|configs|] == configs;
      sweep := Sweep(candidates, measured, adapter.calls);
    }

    /** None stands for the error raised when the runtime cannot be reached. */
    method TuneOnce(modelId: string, modelSpec: Option<ModelSpec>, baselineConfig: Option<Config>)
      returns (session: Option<Session>, ghost measured: seq<Candidate>)
      modifies this`scans, adapter`calls, adapter`checks
      ensures adapter.checks == old(adapter.checks) + 1
      ensures session.Some? <==> adapter.reachable(old(adapter.checks))
      ensures session.None? ==> scans == old(scans) && adapter.calls == old(adapter.calls) && measured == []
      ensures session.Some? ==> scans == old(scans) + if baselineConfig.None? && modelSpec.Some? then 1 else 0
      ensures session.Some? ==>
                Tuned(session.value, measured, adapter.calls)
                == TuneFrom(LabFor(modelId), old(adapter.calls),
                     StartingConfig(baselineConfig, modelSpec, hardware(old(scans))))
    {
      hide Measure, SweepOf, Decide;
      var up := adapter.IsAvailable();
      if !up {
        return None, [];
      }
      var config: Config;
      match baselineConfig {
        case Some(c) => config := c;
        case None => config := DefaultBaselineConfig(modelSpec);
      }
      var baseline := Benchmarked(modelId, config);
      var candidates, sweep := MeasureCandidates(modelId, baseline, GenerateCandidates(config));
      measured := [baseline] + sweep.measured;
      var decided := Judge(modelId, baseline, candidates);
      session := Some(decided);
    }

    static method Judge(modelId: string, baseline: Candidate, candidates: seq<Candidate>) returns (session: Session)
      ensures session == Decide(modelId, baseline, candidates)
    {
      var best := PickBest(candidates);
      if best.None? {
        return Session(modelId, baseline, candidates, baseline, KeptBaseline);
      }
      if best.value.config != baseline.config && Improves(best.value, baseline) {
        return Session(modelId, baseline, candidates, best.value, AcceptedNew);
      }
      return Session(modelId, baseline, candidates, baseline, KeptBaseline);
    }

    /** Persist a session's winning config and log it. */
    method Apply(session: Session) returns (saved: TunedConfig)
      modifies this`audits, storage`tunedConfigs, storage`autopilotEvents
      ensures storage.tunedConfigs
           == Insert(old(storage.tunedConfigs), session.modelId, Tuning(session.winner.config, false))
      ensures saved == Record(|old(storage.tunedConfigs)| + 1, session.modelId, Tuning(session.winner.config, false))
      ensures audits == old(audits) + 1
      ensures storage.autopilotEvents
           == if auditRaises(old(audits)) then old(storage.autopilotEvents)
              else Insert(old(storage.autopilotEvents), session.modelId, Details.Adjust(session.winner.config))
    {
      saved := storage.SaveTunedConfig(session.modelId, Tuning(session.winner.config, false));
      LogEvent(session.modelId, Details.Adjust(session.winner.config));
    }
  }

  /** The generator: the locals of the loop, kept between two yields. */
  class AutopilotGenerator {
    const engine: TuningEngine
    const modelId: string
    const modelSpec: Option<ModelSpec>
    const intervalSeconds: real
    const maxIterations: Option<int>
    const maxAdjustmentsPerDay: Option<int>
    const clock: nat -> real
    const outside: nat -> seq<Request>
    ghost const origin: Position

    var iteration: nat
    var history: seq<Candidate>
    var adjustmentTimestamps: seq<real>
    var ticks: nat
    var sessions: seq<Session>
    var sleeps: seq<real>
    var status: Status
    ghost var measured: seq<Candidate>
    ghost var changes: seq<Change>

    constructor (engine: TuningEngine, modelId: string, modelSpec: Option<ModelSpec>, intervalSeconds: real,
                 maxIterations: Option<int>, initialHistory: seq<Candidate>, maxAdjustmentsPerDay: Option<int>,
                 clock: nat -> real, outside: nat -> seq<Request>)
      ensures this.engine == engine
      ensures TheWorld() == World(engine.LabFor(modelId), engine.adapter.reachable, engine.hardware, clock,
                engine.auditRaises, outside, modelSpec, intervalSeconds, maxIterations, maxAdjustmentsPerDay,
                Position(engine.adapter.calls, engine.adapter.checks, engine.scans, engine.audits))
      ensures View() == Start(TheWorld(), engine.storage.Contents(), initialHistory)
    {
      this.engine, this.modelId, this.modelSpec := engine, modelId, modelSpec;
      this.intervalSeconds, this.maxIterations := intervalSeconds, maxIterations;
      this.maxAdjustmentsPerDay, this.clock, this.outside := maxAdjustmentsPerDay, clock, outside;
      iteration, history, adjustmentTimestamps, ticks := 0, initialHistory, [], 0;
      sessions, sleeps, status := [], [], Running;
      measured, changes := [], [];
      origin := Position(engine.adapter.calls, engine.adapter.checks, engine.scans, engine.audits);
    }

    ghost function TheWorld(): World {
      World(engine.LabFor(modelId), engine.adapter.reachable, engine.hardware, clock, engine.auditRaises, outside,
        modelSpec, intervalSeconds, maxIterations, maxAdjustmentsPerDay, origin)
    }

    ghost function View(): State
      reads this, engine, engine.adapter, engine.storage
    {
      State(engine.storage.Contents(), engine.adapter.calls, engine.adapter.checks, engine.scans, ticks, engine.audits,
        iteration, history, adjustmentTimestamps, sessions, sleeps, status, measured, changes)
    }

    method RecordAdjustment(ghost kind: ChangeKind, ghost from: Config, ghost to: Config)
      modifies this`ticks, this`adjustmentTimestamps, this`changes
      ensures View() == RecordChange(TheWorld(), old(View()), kind, from, to)
    {
      ghost var now := clock(ticks);
      adjustmentTimestamps := adjustmentTimestamps + [clock(ticks)];
      ticks := ticks + 1;
      changes := changes + [Change(kind, now, from, to, |measured|)];
    }

    method AdjustmentsInLast24h() returns (n: nat)
      modifies this`ticks
      ensures n == CountSince(adjustmentTimestamps, clock(old(ticks)) - DAY_SECONDS)
      ensures ticks == old(ticks) + 1
    {
      var cutoff := clock(ticks) - DAY_SECONDS;
      ticks := ticks + 1;
      n := CountSince(adjustmentTimestamps, cutoff);
    }

    method IsRateLimited() returns (limited: bool)
      modifies this`ticks
      ensures limited == Autopilot.CapReached(TheWorld(), old(View()))
      ensures limited <==>
              && maxAdjustmentsPerDay.Some?
              && maxAdjustmentsPerDay.value <= CountSince(adjustmentTimestamps, clock(old(ticks)) - 86400.0)
      ensures View() == AfterRateCheck(TheWorld(), old(View()))
    {
      if maxAdjustmentsPerDay.None? {
        return false;
      }
      var n := AdjustmentsInLast24h();
      return maxAdjustmentsPerDay.value <= n;
    }

    method Probe(config: Config) returns (probe: Candidate)
      modifies this`measured, engine.adapter`calls
      ensures probe == Measure(TheWorld().lab, old(View()).calls, config)
      ensures View() == AfterProbe(old(View()), probe)
    {
      probe := engine.Benchmarked(modelId, config);
      measured := measured + [probe];
    }

    method RollBack(probe: Candidate, target: Config)
      modifies this, engine`audits, engine.storage
      ensures View() == RollbackStep(TheWorld(), old(View()), probe, target)
    {
      var _ := engine.storage.SaveTunedConfig(modelId, Tuning(target, false));
      assert View() == Save(TheWorld(), old(View()), target);
      RecordAdjustment(Reversion, probe.config, target);
      engine.LogEvent(modelId, Details.Rollback(probe.config, target));
      sessions := sessions + [Session(modelId, probe, history, Candidate(target, probe.benchmark), RolledBack)];
    }

    method Limit(session: Session)
      requires session.modelId == modelId
      modifies this, engine`audits, engine.storage`autopilotEvents
      ensures View() == LimitStep(TheWorld(), old(View()), session)
    {
      engine.LogEvent(modelId, Details.RateLimit(session.winner.config));
      history := history + [session.baseline];
      sessions := sessions + [session.(winner := session.baseline, outcome := Outcome.RateLimited)];
    }

    method Accept(session: Session)
      requires session.modelId == modelId
      modifies this, engine`audits, engine.storage
      ensures View() == AcceptStep(TheWorld(), old(View()), session)
    {
      history := history + [session.winner];
      var _ := engine.Apply(session);
      RecordAdjustment(Acceptance, session.baseline.config, session.winner.config);
      sessions := sessions + [session];
    }

    /** What follows a tuning pass: the rate limit, or the history entry and, for a new config, its application. */
    method SettleSession(session: Session)
      requires session.modelId == modelId
      modifies this, engine, engine.storage
      ensures View() == Settle(TheWorld(), old(View()), session)
    {
      var limited := false;
      if session.outcome == AcceptedNew {
        limited := IsRateLimited();
      }
      if limited {
        Limit(session);
      } else if session.outcome == AcceptedNew {
        Accept(session);
      } else {
        history := history + [session.winner];
        sessions := sessions + [session];
      }
    }

    method Measured(stored: Option<Config>) returns (session: Option<Session>)
      modifies this`measured, engine`scans, engine.adapter`calls, engine.adapter`checks
      ensures session.Some? <==> TheWorld().reachable(old(View()).checks)
      ensures View() == AfterAttempt(TheWorld(), old(View()), stored)
      ensures session.Some? ==> session.value == PassSession(TheWorld(), old(View()), stored)
    {
      hide Measure, SweepOf, Decide;
      ghost var m;
      session, m := engine.TuneOnce(modelId, modelSpec, stored);
      measured := measured + m;
    }

    method Tune(stored: Option<Config>)
      modifies this, engine, engine.adapter, engine.storage
      ensures View() == TuneStep(TheWorld(), old(View()), stored)
    {
      var session := Measured(stored);
      if session.None? {
        status := RuntimeUnavailable;
        return;
      }
      SettleSession(session.value);
    }

    method StopLocked(config: Config)
      modifies this, engine`audits, engine.storage`autopilotEvents
      ensures View() == LockedStep(TheWorld(), old(View()), config)
    {
      engine.LogEvent(modelId, Details.Lock(config));
      sessions := sessions + [Session(modelId, Placeholder(config), [], Placeholder(config), Locked)];
      status := Returned;
    }

    /** One turn of the loop body, up to its yield, its return or its exception. */
    method Turn()
      modifies this, engine, engine.adapter, engine.storage
      ensures View() == Body(TheWorld(), old(View()))
    {
      hide TuneStep, RollbackStep, LockedStep, Latest, RollbackTarget, Measure;
      var existing := engine.storage.GetTunedConfig(modelId);
      if existing.Some? && existing.value.body.isLocked {
        StopLocked(existing.value.body.config);
        return;
      }
      var baselineConfig := if existing.Some? then Some(existing.value.body.config) else None;
      if baselineConfig.Some? && history != [] {
        var probe := Probe(baselineConfig.value);
        if NeedsRollback(probe) {
          var target := RollbackTarget(probe, history);
          if target.Some? {
            RollBack(probe, target.value);
            return;
          }
        }
      }
      Tune(baselineConfig);
    }

    /** Whatever others do to the store between two passes, then the end of the loop body: count and sleep. */
    method Wake()
      requires sessions != []
      modifies this, engine.storage
      ensures View() == Resume(TheWorld(), old(View()))
    {
      engine.storage.ServeAll(outside(|sessions| - 1));
      iteration := iteration + 1;
      if maxIterations.None? || iteration < maxIterations.value {
        sleeps := sleeps + [intervalSeconds];
      }
    }

    /** One next(). */
    method Next()
      modifies this, engine, engine.adapter, engine.storage
      ensures View() == Autopilot.Next(TheWorld(), old(View()))
    {
      if status != Running {
        return;
      }
      if sessions != [] {
        Wake();
      }
      if maxIterations.None? || iteration < maxIterations.value {
        Turn();
      } else {
        status := Returned;
      }
    }

    /** A caller that asks for the next session `demand` times; asking an ended generator changes nothing. */
    method Drain(demand: nat)
      modifies this, engine, engine.adapter, engine.storage
      ensures View() == Run(TheWorld(), old(View()), demand)
    {
      for pulled := 0 to demand
        invariant View() == Run(TheWorld(), old(View()), pulled)
      {
        Next();
      }
    }
  }
}
