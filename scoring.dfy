/** The pure decision rules of the portfolio orchestrator: how an agent's reply
    is settled into a stored result, the weighted blend and its upside
    multiplier, the recommendation bands, the investment-policy eligibility
    screen and the per-analysis agent weight override. */
module Scoring {
  import opened Wrappers
  import opened Collections
  import Text

  /** The five analysis agents; `Key` is the dictionary key they are stored under. */
  datatype AgentId = ValueAgent | GrowthAgent | MacroAgent | RiskAgent | SentimentAgent {
    function Key(): string {
      match this
      case ValueAgent => "value_agent"
      case GrowthAgent => "growth_momentum_agent"
      case MacroAgent => "macro_regime_agent"
      case RiskAgent => "risk_agent"
      case SentimentAgent => "sentiment_agent"
    }

    /** The name the per-analysis weight override uses for this agent. */
    function SimpleName(): string {
      match this
      case ValueAgent => "value"
      case GrowthAgent => "growth_momentum"
      case MacroAgent => "macro_regime"
      case RiskAgent => "risk"
      case SentimentAgent => "sentiment"
    }
  }

  /** The five agents, in the order the orchestrator registers and runs them. */
  const AgentNames: seq<AgentId> := [ValueAgent, GrowthAgent, MacroAgent, RiskAgent, SentimentAgent]

  // ---------------------------------------------------------------------
  // Agent results

  /** What an agent's `analyze` call produced: a result dictionary, whose
      `score` or `rationale` entry may be missing, or an exception message. */
  datatype AgentReply =
    | Replied(score: Option<real>, rationale: Option<string>, details: map<string, string>)
    | Raised(message: string)

  /** The entry the orchestrator stores for one agent. */
  datatype AgentResult = AgentResult(score: real, rationale: string, details: map<string, string>)

  /** Python's `score or 50`: a zero score is falsy and reads as neutral. */
  function Coalesce(score: real): real {
    if score == 0.0 then 50.0 else score
  }

  function Failed(message: string): AgentResult {
    AgentResult(50.0, "Analysis failed: " + message, map[])
  }

  /** The entry stored for an agent: a missing score is replaced by 50; a
      missing rationale makes the logging line raise `KeyError('rationale')`,
      which the loop turns into a failure entry like any other exception. */
  function Settle(reply: AgentReply): (r: AgentResult)
    ensures reply.Raised? ==> r == Failed(reply.message)
    ensures reply.Replied? && reply.rationale.Some? ==>
              r.score == reply.score.GetOr(50.0) && r.rationale == reply.rationale.value
              && r.details == reply.details
    ensures Coalesce(r.score) == 50.0 <==>
              !(reply.Replied? && reply.rationale.Some? && reply.score.Some?
                && reply.score.value != 0.0 && reply.score.value != 50.0)
  {
    match reply
    case Raised(m) => Failed(m)
    case Replied(score, rationale, details) =>
      if rationale.None? then Failed("'rationale'")
      else AgentResult(score.GetOr(50.0), rationale.value, details)
  }

  /** `agent_scores`: every stored agent with its score, falsy scores as 50. */
  function AgentScores(results: seq<(AgentId, AgentResult)>): (r: seq<(AgentId, real)>)
    ensures KeysOf(r) == KeysOf(results)
    ensures forall i :: 0 <= i < |r| ==> r[i].1 == Coalesce(results[i].1.score) && r[i].1 != 0.0
  {
    seq(|results|, i requires 0 <= i < |results| => (results[i].0, Coalesce(results[i].1.score)))
  }

  // ---------------------------------------------------------------------
  // Weighted blend

  /** Total weight of the agents that have a result. */
  function MatchedWeight(weights: seq<(AgentId, real)>, results: seq<(AgentId, AgentResult)>): real {
    if weights == [] then 0.0
    else
      var last := weights[|weights| - 1];
      MatchedWeight(weights[..|weights| - 1], results)
        + (if Find(results, last.0).Some? then last.1 else 0.0)
  }

  /** One agent's contribution to the weighted sum. */
  function Weighted(score: real, weight: real): real {
    score * weight
  }

  /** Sum of coalesced score times weight over the agents that have a result. */
  function WeightedTotal(weights: seq<(AgentId, real)>, results: seq<(AgentId, AgentResult)>): real {
    if weights == [] then 0.0
    else
      var last := weights[|weights| - 1];
      var found := Find(results, last.0);
      WeightedTotal(weights[..|weights| - 1], results)
        + (if found.Some? then Weighted(Coalesce(found.value.score), last.1) else 0.0)
  }

  /** Weighted average of the coalesced scores, or 50 when no weight matched. */
  function BaseScore(weights: seq<(AgentId, real)>, results: seq<(AgentId, AgentResult)>): real {
    var tw := MatchedWeight(weights, results);
    if tw > 0.0 then WeightedTotal(weights, results) / tw else 50.0
  }

  /** Every matched agent's coalesced score lies in `[lo, hi]`. */
  ghost predicate ScoresBetween(weights: seq<(AgentId, real)>, results: seq<(AgentId, AgentResult)>, lo: real, hi: real) {
    forall i :: 0 <= i < |weights| && Find(results, weights[i].0).Some? ==>
      lo <= Coalesce(Find(results, weights[i].0).value.score) <= hi
  }

  /** Every matched agent's coalesced score lies in `[0, 100]`. */
  ghost predicate ScoresWithin(weights: seq<(AgentId, real)>, results: seq<(AgentId, AgentResult)>) {
    ScoresBetween(weights, results, 0.0, 100.0)
  }

  ghost predicate NonNegativeWeights(weights: seq<(AgentId, real)>) {
    forall i :: 0 <= i < |weights| ==> weights[i].1 >= 0.0
  }

  /** Adding one score in `[lo, hi]` at a non-negative weight keeps the total
      between `lo` and `hi` times the weight. */
  lemma StepBetween(a: real, b: real, s: real, w: real, lo: real, hi: real)
    requires Weighted(lo, b) <= a <= Weighted(hi, b) && 0.0 <= w && lo <= s <= hi
    ensures Weighted(lo, b + w) <= a + Weighted(s, w) <= Weighted(hi, b + w)
  {
    assert (s - lo) * w >= 0.0 && (hi - s) * w >= 0.0;
    assert lo * (b + w) == lo * b + lo * w && hi * (b + w) == hi * b + hi * w;
  }

  /** The weighted sum of scores in `[lo, hi]` lies between `lo` and `hi`
      times the matched weight. */
  lemma {:induction false} WeightedTotalBetween(weights: seq<(AgentId, real)>, results: seq<(AgentId, AgentResult)>, lo: real, hi: real)
    requires NonNegativeWeights(weights) && ScoresBetween(weights, results, lo, hi)
    ensures Weighted(lo, MatchedWeight(weights, results)) <= WeightedTotal(weights, results) <= Weighted(hi, MatchedWeight(weights, results))
    decreases |weights|
  {
    if weights != [] {
      var p := weights[..|weights| - 1];
      var last := weights[|weights| - 1];
      assert NonNegativeWeights(p) && ScoresBetween(p, results, lo, hi) by {
        assert forall i :: 0 <= i < |p| ==> p[i] == weights[i];
      }
      WeightedTotalBetween(p, results, lo, hi);
      var found := Find(results, last.0);
      if found.Some? {
        var sc := Coalesce(found.value.score);
        assert lo <= sc <= hi by {
          assert weights[|weights| - 1].0 == last.0;
        }
        assert WeightedTotal(weights, results) == WeightedTotal(p, results) + Weighted(sc, last.1);
        assert MatchedWeight(weights, results) == MatchedWeight(p, results) + last.1;
        StepBetween(WeightedTotal(p, results), MatchedWeight(p, results), sc, last.1, lo, hi);
      } else {
        assert WeightedTotal(weights, results) == WeightedTotal(p, results);
        assert MatchedWeight(weights, results) == MatchedWeight(p, results);
      }
    }
  }

  lemma DivBetween(t: real, w: real, lo: real, hi: real)
    requires w > 0.0 && Weighted(lo, w) <= t <= Weighted(hi, w)
    ensures lo <= t / w <= hi
  {
    assert t / w * w == t;
    assert (t / w - lo) * w >= 0.0 && (hi - t / w) * w >= 0.0;
  }

  /** The base score is a weighted average: with non-negative weights and a
      positive matched weight it lies between any bounds of the matched
      coalesced scores, so between the smallest and the largest of them. */
  lemma BaseScoreBetween(weights: seq<(AgentId, real)>, results: seq<(AgentId, AgentResult)>, lo: real, hi: real)
    requires NonNegativeWeights(weights) && ScoresBetween(weights, results, lo, hi)
    requires MatchedWeight(weights, results) > 0.0
    ensures lo <= BaseScore(weights, results) <= hi
  {
    WeightedTotalBetween(weights, results, lo, hi);
    DivBetween(WeightedTotal(weights, results), MatchedWeight(weights, results), lo, hi);
  }

  /** With scores in `[0, 100]` the base score lies in `[0, 100]`, and it is
      the neutral 50 when no weighted agent has a result. */
  lemma BaseScoreWithin(weights: seq<(AgentId, real)>, results: seq<(AgentId, AgentResult)>)
    requires NonNegativeWeights(weights) && ScoresWithin(weights, results)
    ensures 0.0 <= BaseScore(weights, results) <= 100.0
    ensures MatchedWeight(weights, results) <= 0.0 ==> BaseScore(weights, results) == 50.0
  {
    if MatchedWeight(weights, results) > 0.0 {
      BaseScoreBetween(weights, results, 0.0, 100.0);
    }
  }

  // ---------------------------------------------------------------------
  // Upside multiplier

  /** Growth band, read from the stored score without coalescing. */
  function GrowthAdjustment(results: seq<(AgentId, AgentResult)>): real {
    match Find(results, GrowthAgent)
    case None => 0.0
    case Some(r) =>
      if r.score >= 80.0 then 0.15
      else if r.score >= 70.0 then 0.10
      else if r.score >= 60.0 then 0.05
      else if r.score < 40.0 then -0.05
      else 0.0
  }

  /** Sentiment band, read from the coalesced score. */
  function SentimentAdjustment(results: seq<(AgentId, AgentResult)>): real {
    match Find(results, SentimentAgent)
    case None => 0.0
    case Some(r) =>
      var s := Coalesce(r.score);
      if s >= 75.0 then 0.08 else if s >= 65.0 then 0.05 else 0.0
  }

  function ValueAdjustment(results: seq<(AgentId, AgentResult)>): real {
    match Find(results, ValueAgent)
    case None => 0.0
    case Some(r) => if r.score >= 75.0 then 0.05 else 0.0
  }

  function RiskAdjustment(results: seq<(AgentId, AgentResult)>): real {
    match Find(results, RiskAgent)
    case None => 0.0
    case Some(r) => if r.score < 30.0 then -0.10 else 0.0
  }

  /** The neutral multiplier plus the four independent band adjustments. */
  function RawMultiplier(results: seq<(AgentId, AgentResult)>): (m: real)
    ensures 0.85 <= m <= 1.28
  {
    1.0 + GrowthAdjustment(results) + SentimentAdjustment(results)
      + ValueAdjustment(results) + RiskAdjustment(results)
  }

  /** `max(min(m, 1.35), 0.85)`: the adjustments can only reach
      `[0.85, 1.28]`, so the clamp never changes the multiplier. */
  function Multiplier(results: seq<(AgentId, AgentResult)>): (m: real)
    ensures m == RawMultiplier(results)
  {
    var raw := RawMultiplier(results);
    var capped := if raw <= 1.35 then raw else 1.35;
    if capped >= 0.85 then capped else 0.85
  }

  /** `_blend_scores`: base score times the upside multiplier, not re-clamped. */
  function BlendedScore(weights: seq<(AgentId, real)>, results: seq<(AgentId, AgentResult)>): real {
    Blend(BaseScore(weights, results), Multiplier(results))
  }

  function Blend(base: real, multiplier: real): real {
    base * multiplier
  }

  /** With non-negative weights and scores in `[0, 100]` the blended score is
      in `[0, 128]`: it can exceed 100, never 128. */
  lemma BlendedScoreRange(weights: seq<(AgentId, real)>, results: seq<(AgentId, AgentResult)>)
    requires NonNegativeWeights(weights) && ScoresWithin(weights, results)
    ensures 0.0 <= BlendedScore(weights, results) <= 128.0
  {
    BaseScoreWithin(weights, results);
    var b := BaseScore(weights, results);
    var m := Multiplier(results);
    MulWithin(b, m);
  }

  lemma MulWithin(b: real, m: real)
    requires 0.0 <= b <= 100.0 && 0.85 <= m <= 1.28
    ensures 0.0 <= Blend(b, m) <= 128.0
  {
    assert (100.0 - b) * m >= 0.0;
    assert b * m <= 100.0 * m;
  }

  /** The weights an orchestrator starts with: `ips_config['agent_weights']`,
      keyed by simplified names, with the built-in defaults for absent keys. */
  function DefaultWeights(config: map<string, real>): (w: seq<(AgentId, real)>)
    ensures KeysOf(w) == AgentNames
  {
    [ (ValueAgent, if "value" in config then config["value"] else 0.20),
      (GrowthAgent, if "growth_momentum" in config then config["growth_momentum"] else 0.40),
      (MacroAgent, if "macro_regime" in config then config["macro_regime"] else 0.10),
      (RiskAgent, if "risk" in config then config["risk"] else 0.15),
      (SentimentAgent, if "sentiment" in config then config["sentiment"] else 0.15) ]
  }

  /** Stored results for the five agents with the given scores. */
  function Results(v: real, g: real, m: real, r: real, s: real): seq<(AgentId, AgentResult)> {
    [ (ValueAgent, AgentResult(v, "", map[])),
      (GrowthAgent, AgentResult(g, "", map[])),
      (MacroAgent, AgentResult(m, "", map[])),
      (RiskAgent, AgentResult(r, "", map[])),
      (SentimentAgent, AgentResult(s, "", map[])) ]
  }

  lemma FindResults(v: real, g: real, m: real, r: real, s: real)
    ensures Find(Results(v, g, m, r, s), ValueAgent) == Some(AgentResult(v, "", map[]))
    ensures Find(Results(v, g, m, r, s), GrowthAgent) == Some(AgentResult(g, "", map[]))
    ensures Find(Results(v, g, m, r, s), MacroAgent) == Some(AgentResult(m, "", map[]))
    ensures Find(Results(v, g, m, r, s), RiskAgent) == Some(AgentResult(r, "", map[]))
    ensures Find(Results(v, g, m, r, s), SentimentAgent) == Some(AgentResult(s, "", map[]))
  {
    var res := Results(v, g, m, r, s);
    assert KeysOf(res) == [ValueAgent, GrowthAgent, MacroAgent, RiskAgent, SentimentAgent];
    FindDistinct(res, 0);
    FindDistinct(res, 1);
    FindDistinct(res, 2);
    FindDistinct(res, 3);
    FindDistinct(res, 4);
  }

  /** The prefixes of the default weight list the blend recurses through. */
  lemma DefaultWeightPrefixes()
    ensures var w := DefaultWeights(map[]);
      && w == [(ValueAgent, 0.20), (GrowthAgent, 0.40), (MacroAgent, 0.10), (RiskAgent, 0.15), (SentimentAgent, 0.15)]
      && w[..4] == [w[0], w[1], w[2], w[3]] && w[..3] == [w[0], w[1], w[2]]
      && w[..2] == [w[0], w[1]] && w[..1] == [w[0]]
      && w[..4][..3] == w[..3] && w[..3][..2] == w[..2] && w[..2][..1] == w[..1] && w[..1][..0] == []
  {
  }

  /** With all five agents present the default weights all match and sum to 1. */
  lemma DefaultMatchedWeight(v: real, g: real, m: real, r: real, s: real)
    ensures MatchedWeight(DefaultWeights(map[]), Results(v, g, m, r, s)) == 1.0
  {
    var w := DefaultWeights(map[]);
    var res := Results(v, g, m, r, s);
    FindResults(v, g, m, r, s);
    DefaultWeightPrefixes();
    assert MatchedWeight(w[..1], res) == 0.20;
    assert MatchedWeight(w[..2], res) == 0.60;
    assert MatchedWeight(w[..3], res) == 0.70;
    assert MatchedWeight(w[..4], res) == 0.85;
  }

  /** With all five agents present and non-zero scores, the weighted total
      under the default weights. */
  lemma DefaultWeightedTotal(v: real, g: real, m: real, r: real, s: real)
    requires v != 0.0 && g != 0.0 && m != 0.0 && r != 0.0 && s != 0.0
    ensures WeightedTotal(DefaultWeights(map[]), Results(v, g, m, r, s))
            == v * 0.20 + g * 0.40 + m * 0.10 + r * 0.15 + s * 0.15
  {
    var w := DefaultWeights(map[]);
    var res := Results(v, g, m, r, s);
    FindResults(v, g, m, r, s);
    DefaultWeightPrefixes();
    assert WeightedTotal(w[..1], res) == v * 0.20;
    assert WeightedTotal(w[..2], res) == v * 0.20 + g * 0.40;
    assert WeightedTotal(w[..3], res) == v * 0.20 + g * 0.40 + m * 0.10;
    assert WeightedTotal(w[..4], res) == v * 0.20 + g * 0.40 + m * 0.10 + r * 0.15;
  }

  /** Under the default weights, with all five agents present and non-zero
      scores, the base score is `.20 v + .40 g + .10 m + .15 r + .15 s`. */
  lemma DefaultBase(v: real, g: real, m: real, r: real, s: real)
    requires v != 0.0 && g != 0.0 && m != 0.0 && r != 0.0 && s != 0.0
    ensures BaseScore(DefaultWeights(map[]), Results(v, g, m, r, s))
            == 0.20 * v + 0.40 * g + 0.10 * m + 0.15 * r + 0.15 * s
  {
    DefaultMatchedWeight(v, g, m, r, s);
    DefaultWeightedTotal(v, g, m, r, s);
  }

  /** Five perfect scores under the default weights blend to 128. */
  lemma PerfectScoresBlendTo128()
    ensures BlendedScore(DefaultWeights(map[]), Results(100.0, 100.0, 100.0, 100.0, 100.0)) == 128.0
  {
    var res := Results(100.0, 100.0, 100.0, 100.0, 100.0);
    DefaultBase(100.0, 100.0, 100.0, 100.0, 100.0);
    FindResults(100.0, 100.0, 100.0, 100.0, 100.0);
    assert GrowthAdjustment(res) == 0.15 && SentimentAdjustment(res) == 0.08;
    assert ValueAdjustment(res) == 0.05 && RiskAdjustment(res) == 0.0;
    assert Multiplier(res) == 1.28;
  }

  /** Scores value 80, growth 85, macro 50, risk 60 and sentiment 78 under
      the default weights: base 75.7, multiplier 1.28, final 96.896. */
  lemma WorkedExample()
    ensures BaseScore(DefaultWeights(map[]), Results(80.0, 85.0, 50.0, 60.0, 78.0)) == 75.7
    ensures Multiplier(Results(80.0, 85.0, 50.0, 60.0, 78.0)) == 1.28
    ensures BlendedScore(DefaultWeights(map[]), Results(80.0, 85.0, 50.0, 60.0, 78.0)) == 96.896
    ensures Recommend(96.896) == StrongBuy
  {
    var res := Results(80.0, 85.0, 50.0, 60.0, 78.0);
    DefaultBase(80.0, 85.0, 50.0, 60.0, 78.0);
    FindResults(80.0, 85.0, 50.0, 60.0, 78.0);
    assert GrowthAdjustment(res) == 0.15 && SentimentAdjustment(res) == 0.08;
    assert ValueAdjustment(res) == 0.05 && RiskAdjustment(res) == 0.0;
  }

  // ---------------------------------------------------------------------
  // Recommendation bands

  datatype Verdict = StrongBuy | Buy | Hold | WeakHold | Sell {
    function Label(): string {
      match this
      case StrongBuy => "STRONG BUY"
      case Buy => "BUY"
      case Hold => "HOLD"
      case WeakHold => "WEAK HOLD"
      case Sell => "SELL"
    }

    /** Position on the scale, 0 for SELL up to 4 for STRONG BUY. */
    function Strength(): nat {
      match this
      case StrongBuy => 4
      case Buy => 3
      case Hold => 2
      case WeakHold => 1
      case Sell => 0
    }
  }

  /** `_generate_recommendation`: a step function with breakpoints 80/70/60/40. */
  function Recommend(score: real): (v: Verdict)
    ensures v.Strength() == (if score >= 80.0 then 4 else if score >= 70.0 then 3
                             else if score >= 60.0 then 2 else if score >= 40.0 then 1 else 0)
  {
    if score >= 80.0 then StrongBuy
    else if score >= 70.0 then Buy
    else if score >= 60.0 then Hold
    else if score >= 40.0 then WeakHold
    else Sell
  }

  /** A higher score never gets a weaker recommendation. */
  lemma RecommendMonotone(s: real, t: real)
    requires s <= t
    ensures Recommend(s).Strength() <= Recommend(t).Strength()
  {
  }

  // ---------------------------------------------------------------------
  // Investment-policy eligibility

  /** The fundamentals the decision rules read; `None` is a missing key. */
  datatype Fundamentals = Fundamentals(
    name: Option<string>,
    sector: Option<string>,
    price: Option<real>,
    marketCap: Option<real>,
    beta: Option<real>,
    peRatio: Option<real>,
    dividendYield: Option<real>)

  const NoFundamentals := Fundamentals(None, None, None, None, None, None, None)

  /** The parts of the investment policy statement the rules read. */
  datatype IpsConfig = IpsConfig(
    minPrice: Option<real>,
    minMarketCap: Option<real>,
    excludedSectors: seq<string>,
    betaMin: Option<real>,
    betaMax: Option<real>,
    agentWeights: map<string, real>)

  /** Python truthiness of an optional number: present and non-zero. */
  predicate Truthy(x: Option<real>) {
    x.Some? && x.value != 0.0
  }

  function LowerAll(names: seq<string>): (r: seq<string>)
    ensures |r| == |names| && forall i :: 0 <= i < |names| ==> r[i] == Text.Lower(names[i])
  {
    seq(|names|, i requires 0 <= i < |names| => Text.Lower(names[i]))
  }

  predicate SectorExcluded(ips: IpsConfig, sector: string) {
    sector != [] && ips.excludedSectors != [] && Text.Lower(sector) in LowerAll(ips.excludedSectors)
  }

  /** `_check_ips_eligibility`: the four screens in source order. */
  function IsEligible(ips: IpsConfig, f: Fundamentals): bool {
    var price := f.price.GetOr(0.0);
    var cap := f.marketCap.GetOr(0.0);
    if price != 0.0 && price < ips.minPrice.GetOr(1.0) then false
    else if cap != 0.0 && cap < ips.minMarketCap.GetOr(0.0) then false
    else if SectorExcluded(ips, f.sector.GetOr("")) then false
    else if Truthy(f.beta) && (f.beta.value < ips.betaMin.GetOr(0.0) || f.beta.value > ips.betaMax.GetOr(999.0)) then false
    else true
  }

  /** Which screens a stock fails. Each limit applies only when the value is
      present and non-zero, and sectors are compared ignoring case. */
  lemma EligibilityRules(ips: IpsConfig, f: Fundamentals)
    ensures IsEligible(ips, f) <==>
      (!Truthy(f.price) || f.price.value >= ips.minPrice.GetOr(1.0))
      && (!Truthy(f.marketCap) || f.marketCap.value >= ips.minMarketCap.GetOr(0.0))
      && !(f.sector.Some? && f.sector.value != [] &&
           exists e :: e in ips.excludedSectors && Text.Lower(e) == Text.Lower(f.sector.value))
      && (!Truthy(f.beta) || ips.betaMin.GetOr(0.0) <= f.beta.value <= ips.betaMax.GetOr(999.0))
  {
    if f.sector.Some? && f.sector.value != [] {
      var low := LowerAll(ips.excludedSectors);
      if Text.Lower(f.sector.value) in low {
        var k :| 0 <= k < |low| && low[k] == Text.Lower(f.sector.value);
        assert ips.excludedSectors[k] in ips.excludedSectors;
      }
      if exists e :: e in ips.excludedSectors && Text.Lower(e) == Text.Lower(f.sector.value) {
        var e :| e in ips.excludedSectors && Text.Lower(e) == Text.Lower(f.sector.value);
        var k :| 0 <= k < |ips.excludedSectors| && ips.excludedSectors[k] == e;
        assert low[k] == Text.Lower(f.sector.value);
      }
    }
  }

  /** A stock with no fundamentals passes every screen under any policy. */
  lemma MissingDataIsEligible(ips: IpsConfig)
    ensures IsEligible(ips, NoFundamentals)
  {
  }

  // ---------------------------------------------------------------------
  // Per-analysis weight override

  /** `weight_mapping.get(name, name)`: simplified names map to agent keys,
      and a full agent key names itself; any other name matches no agent. */
  function AgentKeyFor(name: string): (id: Option<AgentId>)
    ensures id.Some? ==> name == id.value.Key() || name == id.value.SimpleName()
  {
    if name == ValueAgent.SimpleName() || name == ValueAgent.Key() then Some(ValueAgent)
    else if name == GrowthAgent.SimpleName() || name == GrowthAgent.Key() then Some(GrowthAgent)
    else if name == MacroAgent.SimpleName() || name == MacroAgent.Key() then Some(MacroAgent)
    else if name == RiskAgent.SimpleName() || name == RiskAgent.Key() then Some(RiskAgent)
    else if name == SentimentAgent.SimpleName() || name == SentimentAgent.Key() then Some(SentimentAgent)
    else None
  }

  /** The weights after applying `overrides` in order; a name whose agent key is
      not already a weight key is ignored. */
  function Overridden(weights: seq<(AgentId, real)>, overrides: seq<(string, real)>): seq<(AgentId, real)>
    decreases |overrides|
  {
    if overrides == [] then weights
    else
      var prev := Overridden(weights, overrides[..|overrides| - 1]);
      var last := overrides[|overrides| - 1];
      var key := AgentKeyFor(last.0);
      if key.Some? && key.value in KeysOf(prev) then Put(prev, key.value, last.1) else prev
  }

  /** The value of the last override that names agent `key`, if any. */
  function LastOverride(overrides: seq<(string, real)>, key: AgentId): Option<real> {
    if overrides == [] then None
    else if AgentKeyFor(overrides[|overrides| - 1].0) == Some(key) then Some(overrides[|overrides| - 1].1)
    else LastOverride(overrides[..|overrides| - 1], key)
  }

  /** Overriding keeps the agent keys and their order, and each agent ends up
      with its last override, or its old weight when nothing names it. */
  lemma {:induction false} OverriddenWeights(weights: seq<(AgentId, real)>, overrides: seq<(string, real)>)
    ensures KeysOf(Overridden(weights, overrides)) == KeysOf(weights)
    ensures forall k :: k in KeysOf(weights) ==>
      Find(Overridden(weights, overrides), k) == (if LastOverride(overrides, k).Some? then LastOverride(overrides, k) else Find(weights, k))
    decreases |overrides|
  {
    if overrides != [] {
      var p := overrides[..|overrides| - 1];
      OverriddenWeights(weights, p);
      var prev := Overridden(weights, p);
      var key := AgentKeyFor(overrides[|overrides| - 1].0);
      if key.Some? && key.value in KeysOf(prev) {
        forall k | k in KeysOf(weights)
          ensures Find(Put(prev, key.value, overrides[|overrides| - 1].1), k)
                  == if k == key.value then Some(overrides[|overrides| - 1].1) else Find(prev, k)
        {
          FindAfterPut(prev, key.value, overrides[|overrides| - 1].1, k);
        }
      }
    }
  }
}
