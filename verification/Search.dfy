/** Which configs a tuning pass tries, and the default it starts from. */
module Search {
  import opened Domain

  const CTX_FLOOR := 512
  const CTX_CEILING := 8192
  const DEFAULT_BASELINE_CTX := 2048

  function Ctx(tokens: int): (c: Config)
    ensures c.Keys == {"num_ctx"} && c["num_ctx"] == tokens
  {
    map["num_ctx" := tokens]
  }

  function BaselineCtx(baseline: Config): int {
    if "num_ctx" in baseline then baseline["num_ctx"] else DEFAULT_BASELINE_CTX
  }

  function Halved(ctx: int): int {
    if ctx / 2 < CTX_FLOOR then CTX_FLOOR else ctx / 2
  }

  function Doubled(ctx: int): int {
    if CTX_CEILING < ctx * 2 then CTX_CEILING else ctx * 2
  }

  /** sorted(s | {x}) for an already sorted, duplicate-free s. */
  function AddDistinct(s: seq<int>, x: int): seq<int> {
    if s == [] || x < s[0] then [x] + s
    else if x == s[0] then s
    else [s[0]] + AddDistinct(s[1..], x)
  }

  function ContextValues(ctx: int): seq<int> {
    AddDistinct(AddDistinct([ctx], Halved(ctx)), Doubled(ctx))
  }

  function GenerateCandidates(baseline: Config): (configs: seq<Config>)
    ensures |configs| == |ContextValues(BaselineCtx(baseline))|
  {
    var values := ContextValues(BaselineCtx(baseline));
    seq(|values|, i requires 0 <= i < |values| => Ctx(values[i]))
  }

  lemma CtxInjective(a: int, b: int)
    ensures Ctx(a) == Ctx(b) <==> a == b
  {
    assert Ctx(a)["num_ctx"] == a && Ctx(b)["num_ctx"] == b;
  }

  lemma {:induction false} AddDistinctToPair(s: seq<int>, x: int)
    requires s != [] && |s| <= 2 && (|s| == 2 ==> s[0] < s[1])
    ensures AddDistinct(s, x)
         == if x in s then s
            else if x < s[0] then [x] + s
            else if |s| == 1 then s + [x]
            else if x < s[1] then [s[0], x, s[1]]
            else s + [x]
  {
    assert AddDistinct([], x) == [x];
    if |s| == 2 {
      assert s[1..] == [s[1]] && s[1..][1..] == [];
    } else {
      assert s[1..] == [];
    }
  }

  /** One step down: half the context, rounded down, but never below 512. */
  ghost predicate StepDown(ctx: int, x: int) {
    if ctx < 1024 then x == 512 else 2 * x <= ctx <= 2 * x + 1
  }

  /** One step up: twice the context, but never above 8192. */
  ghost predicate StepUp(ctx: int, x: int) {
    if 4096 < ctx then x == 8192 else x == ctx + ctx
  }

  /** Strictly increasing, and exactly the baseline, one step down and one step up. */
  lemma {:induction false} CandidateValues(ctx: int)
    ensures var values := ContextValues(ctx);
      && (forall i, j :: 0 <= i < j < |values| ==> values[i] < values[j])
      && (forall x :: x in values <==> x == ctx || StepDown(ctx, x) || StepUp(ctx, x))
      && 1 <= |values| <= 3
  {
    AddDistinctToPair([ctx], Halved(ctx));
    AddDistinctToPair(AddDistinct([ctx], Halved(ctx)), Doubled(ctx));
  }

  /** For a baseline context inside the bounds every candidate is inside too, and only the two ends lose a neighbour. */
  lemma {:induction false} CandidatesInRange(ctx: int)
    ensures 512 <= ctx <= 8192 <==> forall x :: x in ContextValues(ctx) ==> 512 <= x <= 8192
    ensures 512 <= ctx <= 8192 ==> |ContextValues(ctx)| == if ctx in {512, 8192} then 2 else 3
  {
    CandidateValues(ctx);
    assert ctx in ContextValues(ctx);
    AddDistinctToPair([ctx], Halved(ctx));
    AddDistinctToPair(AddDistinct([ctx], Halved(ctx)), Doubled(ctx));
  }

  /**
   * The configs tried from a baseline set num_ctx and nothing else, in increasing order: to the baseline's own value,
   * one step down and one step up. A baseline without num_ctx counts as 2048.
   */
  lemma {:induction false} CandidatesExactly(baseline: Config, c: Config)
    ensures var ctx := if "num_ctx" in baseline then baseline["num_ctx"] else 2048;
      c in GenerateCandidates(baseline) <==>
      && c.Keys == {"num_ctx"}
      && (c["num_ctx"] == ctx || StepDown(ctx, c["num_ctx"]) || StepUp(ctx, c["num_ctx"]))
    ensures forall i, j :: 0 <= i < j < |GenerateCandidates(baseline)| ==>
              "num_ctx" in GenerateCandidates(baseline)[i] && "num_ctx" in GenerateCandidates(baseline)[j]
              && GenerateCandidates(baseline)[i]["num_ctx"] < GenerateCandidates(baseline)[j]["num_ctx"]
  {
    var values, configs := ContextValues(BaselineCtx(baseline)), GenerateCandidates(baseline);
    CandidateValues(BaselineCtx(baseline));
    hide StepDown, StepUp, ContextValues;
    if c.Keys == {"num_ctx"} && c["num_ctx"] in values {
      assert c == Ctx(c["num_ctx"]);
      var i :| 0 <= i < |values| && values[i] == c["num_ctx"];
      assert configs[i] == c;
    }
    if c in configs {
      var i :| 0 <= i < |configs| && configs[i] == c;
      assert c["num_ctx"] == values[i] && values[i] in values;
    }
  }

  /** A baseline is among its own candidates exactly when num_ctx is its one and only key. */
  lemma {:induction false} OwnCandidate(baseline: Config)
    ensures baseline in GenerateCandidates(baseline) <==> baseline.Keys == {"num_ctx"}
  {
    CandidateValues(BaselineCtx(baseline));
    var values, configs := ContextValues(BaselineCtx(baseline)), GenerateCandidates(baseline);
    if baseline.Keys == {"num_ctx"} {
      assert baseline == Ctx(BaselineCtx(baseline));
      assert BaselineCtx(baseline) in values;
      var i :| 0 <= i < |values| && values[i] == BaselineCtx(baseline);
      assert configs[i] == baseline;
    }
  }
}

/** The default baseline: a context tier chosen by how the model fits the free video memory. */
module ConfigBuilder {
  import opened Domain
  import opened Search

  const GENEROUS_CTX := 4096
  const MODERATE_CTX := 2048
  const CONSERVATIVE_CTX := 1024

  datatype ModelSpec = ModelSpec(minVramMb: int, recommendedVramMb: int)

  /** Free video memory per GPU: all that the default config depends on. */
  datatype HardwareProfile = HardwareProfile(freeVramMb: seq<int>)

  function Largest(s: seq<int>): (m: int)
    requires s != []
    ensures m in s && forall x :: x in s ==> x <= m
  {
    if |s| == 1 then s[0]
    else
      assert s == [s[0]] + s[1..];
      var rest := Largest(s[1..]);
      if s[0] < rest then rest else s[0]
  }

  function BuildRunConfig(model: ModelSpec, hw: HardwareProfile): Config {
    if hw.freeVramMb == [] then map[]
    else
      var free := Largest(hw.freeVramMb);
      if model.recommendedVramMb <= free then Ctx(GENEROUS_CTX)
      else if model.minVramMb <= free then Ctx(MODERATE_CTX)
      else Ctx(CONSERVATIVE_CTX)
  }

  /** The tier is decided by whether any one GPU has room for the model as recommended, or at least at its minimum. */
  lemma {:induction false} TierByAnyGpu(model: ModelSpec, hw: HardwareProfile)
    ensures BuildRunConfig(model, hw)
         == if hw.freeVramMb == [] then map[]
            else if exists i :: 0 <= i < |hw.freeVramMb| && model.recommendedVramMb <= hw.freeVramMb[i] then Ctx(4096)
            else if exists i :: 0 <= i < |hw.freeVramMb| && model.minVramMb <= hw.freeVramMb[i] then Ctx(2048)
            else Ctx(1024)
  {
    if hw.freeVramMb != [] {
      var free := Largest(hw.freeVramMb);
      var k :| 0 <= k < |hw.freeVramMb| && hw.freeVramMb[k] == free;
      assert forall i :: 0 <= i < |hw.freeVramMb| ==> hw.freeVramMb[i] in hw.freeVramMb;
    }
  }
}
