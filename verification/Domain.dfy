/** The values that pass between the benchmark, the tuner and the stores. */
module Domain {

  datatype Option<+T> = None | Some(value: T)

  /** Runtime options, such as {"num_ctx": 4096}; the empty map leaves everything to the runtime. */
  type Config = map<string, int>

  /** What one benchmark of one config produced. */
  datatype Benchmark = Benchmark(
    config: Config,
    tokensPerSec: Option<real>,
    p50LatencyS: Option<real>,
    p95LatencyS: Option<real>,
    oomOccurred: bool,
    error: Option<string>,
    samplesCompleted: nat,
    samplesAttempted: nat)
  {
    predicate Succeeded() {
      error.None? && samplesCompleted == samplesAttempted
    }

    /** Fit to be chosen: it succeeded and did not run out of memory. */
    predicate Viable() {
      Succeeded() && !oomOccurred
    }

    /** Throughput with a missing measurement read as zero. */
    function Throughput(): real {
      match tokensPerSec
      case None => 0.0
      case Some(t) => t
    }
  }

  /** A config paired with a benchmark outcome. */
  datatype Candidate = Candidate(config: Config, benchmark: Benchmark) {
    predicate Viable() {
      benchmark.Viable()
    }

    /** The benchmark was taken under this very config. */
    predicate Honest() {
      benchmark.config == config
    }
  }

  datatype Outcome = AcceptedNew | KeptBaseline | RolledBack | Locked | RateLimited

  datatype Session = Session(
    modelId: string,
    baseline: Candidate,
    candidates: seq<Candidate>,
    winner: Candidate,
    outcome: Outcome)

  /** One stored row: the id is set by the store on insert. */
  datatype Record<+T> = Record(id: nat, modelId: string, body: T)

  datatype Tuning = Tuning(config: Config, isLocked: bool)

  datatype RunData = RunData(prompt: string, tokensGenerated: int, totalDurationS: real, tokensPerSec: Option<real>)

  /** The audit entries the engine writes, without their free-text reasons. */
  datatype Details =
    | Adjust(config: Config)
    | Rollback(from: Config, to: Config)
    | Lock(config: Config)
    | RateLimit(wouldHaveApplied: Config)

  type TunedConfig = Record<Tuning>
  type RunRecord = Record<RunData>
  type AutopilotEvent = Record<Details>
}
