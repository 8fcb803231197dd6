/** The portfolio orchestrator: one stock analysed by the five agents under
    temporarily overridden weights, and a portfolio built from the analyses
    of AI-selected or manually given tickers. Data gathering and the agents
    themselves are parameters. */
module Orchestration {
  import opened Wrappers
  import opened Collections
  import opened Scoring
  import Selection

  /** What data gathering produced: an exception message, or the fundamentals
      (`None` when the data or its fundamentals dictionary is empty). */
  datatype Gathered = GatherRaised(message: string) | GatherReturned(fundamentals: Option<Fundamentals>)

  /** The analysis dictionary of one ticker. Error results have no
      fundamentals, no agent results, zero scores, are ineligible and lack a
      recommendation. `aiRationale` is added later by portfolio construction. */
  datatype Analysis = Analysis(
    ticker: string,
    error: Option<string>,
    fundamentals: Option<Fundamentals>,
    agentResults: seq<(AgentId, AgentResult)>,
    agentScores: seq<(AgentId, real)>,
    blendedScore: real,
    finalScore: real,
    eligible: bool,
    recommendation: Option<Verdict>,
    aiRationale: Option<string>)

  function ErrorAnalysis(ticker: string, message: string): Analysis {
    Analysis(ticker, Some(message), None, [], [], 0.0, 0.0, false, None, None)
  }

  /** The stored result of every agent, in registration order. */
  function RunAgents(run: AgentId -> AgentReply): (r: seq<(AgentId, AgentResult)>)
    ensures KeysOf(r) == AgentNames
    ensures forall i :: 0 <= i < |r| ==> r[i].1 == Settle(run(r[i].0))
  {
    seq(|AgentNames|, i requires 0 <= i < |AgentNames| => (AgentNames[i], Settle(run(AgentNames[i]))))
  }

  /** The weights in force during an analysis: overridden when any override
      is given (a non-empty dictionary is truthy). */
  function EffectiveWeights(weights: seq<(AgentId, real)>, overrides: seq<(string, real)>): seq<(AgentId, real)> {
    if overrides != [] then Overridden(weights, overrides) else weights
  }

  predicate HasData(gathered: Gathered) {
    gathered.GatherReturned? && gathered.fundamentals.Some?
  }

  /** The agent loop of `analyze_single_stock`: each agent's reply, or the
      exception it raised, settled into a stored result. */
  method RunAllAgents(run: AgentId -> AgentReply) returns (results: seq<(AgentId, AgentResult)>)
    ensures results == RunAgents(run)
  {
    results := [];
    for i := 0 to |AgentNames|
      invariant |results| == i
      invariant forall j :: 0 <= j < i ==> results[j] == (AgentNames[j], Settle(run(AgentNames[j])))
    {
      var id := AgentNames[i];
      var entry;
      match run(id) {
        case Raised(m) =>
          entry := Failed(m);
        case Replied(score, rationale, details) =>
          var stored := if score.None? then 50.0 else score.value;
          if rationale.None? {
            entry := Failed("'rationale'");
          } else {
            entry := AgentResult(stored, rationale.value, details);
          }
      }
      results := results + [(id, entry)];
    }
  }

  /** `analyze_single_stock` as a function of the weights before the call. */
  function Analyze(weights: seq<(AgentId, real)>, ticker: string, overrides: seq<(string, real)>,
                   gathered: Gathered, run: AgentId -> AgentReply): Analysis
  {
    match gathered
    case GatherRaised(m) => ErrorAnalysis(ticker, "Data gathering failed: " + m)
    case GatherReturned(None) => ErrorAnalysis(ticker, "No data available")
    case GatherReturned(Some(f)) =>
      var results := RunAgents(run);
      var blended := BlendedScore(EffectiveWeights(weights, overrides), results);
      Analysis(ticker, None, Some(f), results, AgentScores(results), blended, blended, true, Some(Recommend(blended)), None)
  }

  /** The weights after the call: restored on success, still overridden after
      an early error return. */
  function WeightsAfter(weights: seq<(AgentId, real)>, overrides: seq<(string, real)>, gathered: Gathered): seq<(AgentId, real)> {
    if HasData(gathered) then weights else EffectiveWeights(weights, overrides)
  }

  /** What a completed analysis holds: every agent has an entry, the final
      score is the blend under the effective weights, and the recommendation
      is read off it; a failed one is ineligible and has no recommendation. */
  lemma AnalysisOutcome(weights: seq<(AgentId, real)>, ticker: string, overrides: seq<(string, real)>,
                        gathered: Gathered, run: AgentId -> AgentReply)
    ensures var a := Analyze(weights, ticker, overrides, gathered, run);
      && (a.eligible <==> HasData(gathered))
      && (a.recommendation.Some? <==> HasData(gathered))
      && (a.error.Some? <==> !HasData(gathered))
      && (HasData(gathered) ==>
            && KeysOf(a.agentResults) == AgentNames
            && KeysOf(a.agentScores) == AgentNames
            && a.finalScore == a.blendedScore == BlendedScore(EffectiveWeights(weights, overrides), a.agentResults)
            && a.recommendation == Some(Recommend(a.finalScore)))
      && (!HasData(gathered) ==> a.finalScore == 0.0 && a.agentResults == [])
  {
  }

  /** An agent that raises is stored as neutral 50 with a failure rationale. */
  lemma RaisingAgentIsNeutral(run: AgentId -> AgentReply, id: AgentId)
    requires run(id).Raised?
    ensures Find(RunAgents(run), id) == Some(Failed(run(id).message))
    ensures Find(AgentScores(RunAgents(run)), id) == Some(50.0)
  {
    var r := RunAgents(run);
    var k := match id
      case ValueAgent => 0 case GrowthAgent => 1 case MacroAgent => 2 case RiskAgent => 3 case SentimentAgent => 4;
    assert KeysOf(r)[k] == id;
    FindFirst(r, k);
    var s := AgentScores(r);
    assert KeysOf(s)[k] == id;
    FindFirst(s, k);
  }

  /** `Find` returns the entry at the only position holding a key. */
  lemma FindFirst<V>(al: seq<(AgentId, V)>, k: nat)
    requires k < |al| && NoDup(KeysOf(al))
    ensures Find(al, al[k].0) == Some(al[k].1)
  {
    var r := Find(al, al[k].0);
    var j :| 0 <= j < |al| && al[j] == (al[k].0, r.value);
    assert KeysOf(al)[j] == KeysOf(al)[k];
  }

  /** With non-negative weights and every reply's score in `[0, 100]`, the
      final score lies in `[0, 128]`. */
  lemma AnalysisScoreRange(weights: seq<(AgentId, real)>, ticker: string, overrides: seq<(string, real)>,
                           gathered: Gathered, run: AgentId -> AgentReply)
    requires NonNegativeWeights(EffectiveWeights(weights, overrides))
    requires forall id :: run(id).Replied? && run(id).score.Some? ==> 0.0 <= run(id).score.value <= 100.0
    ensures 0.0 <= Analyze(weights, ticker, overrides, gathered, run).finalScore <= 128.0
  {
    if HasData(gathered) {
      var w := EffectiveWeights(weights, overrides);
      var results := RunAgents(run);
      forall i | 0 <= i < |w| && Find(results, w[i].0).Some?
        ensures 0.0 <= Coalesce(Find(results, w[i].0).value.score) <= 100.0
      {
        var found := Find(results, w[i].0).value;
        var j :| 0 <= j < |results| && results[j] == (w[i].0, found);
        assert found == Settle(run(results[j].0));
      }
      BlendedScoreRange(w, results);
    }
  }

  /** The override leaks: after an early error return, an agent named by an
      override keeps the overriding weight instead of its own. */
  lemma OverrideLeaksOnEarlyError(weights: seq<(AgentId, real)>, overrides: seq<(string, real)>,
                                  gathered: Gathered, k: AgentId, v: real)
    requires !HasData(gathered)
    requires k in KeysOf(weights) && LastOverride(overrides, k) == Some(v)
    ensures Find(WeightsAfter(weights, overrides, gathered), k) == Some(v)
  {
    assert overrides != [];
    OverriddenWeights(weights, overrides);
  }

  /** The weighted average of `_blend_scores`: score times weight accumulated
      over the weights that have a result, divided by their total weight. */
  method WeightedAverage(weights: seq<(AgentId, real)>, results: seq<(AgentId, AgentResult)>) returns (base: real)
    ensures base == BaseScore(weights, results)
  {
    var totalScore := 0.0;
    var totalWeight := 0.0;
    for i := 0 to |weights|
      invariant totalScore == WeightedTotal(weights[..i], results)
      invariant totalWeight == MatchedWeight(weights[..i], results)
    {
      assert weights[..i + 1][..i] == weights[..i];
      var entry := weights[i];
      var found := Find(results, entry.0);
      if found.Some? {
        totalScore := totalScore + Coalesce(found.value.score) * entry.1;
        totalWeight := totalWeight + entry.1;
      }
    }
    assert weights[..|weights|] == weights;
    base := if totalWeight > 0.0 then totalScore / totalWeight else 50.0;
  }

  /** The upside multiplier of `_blend_scores`, adjusted band by band from 1
      and clamped to `[0.85, 1.35]`. */
  method UpsideMultiplier(results: seq<(AgentId, AgentResult)>) returns (multiplier: real)
    ensures multiplier == Multiplier(results)
    ensures 0.85 <= multiplier <= 1.28
  {
    multiplier := 1.0;
    var growth := Find(results, GrowthAgent);
    if growth.Some? {
      var g := growth.value.score;
      if g >= 80.0 {
        multiplier := multiplier + 0.15;
      } else if g >= 70.0 {
        multiplier := multiplier + 0.10;
      } else if g >= 60.0 {
        multiplier := multiplier + 0.05;
      } else if g < 40.0 {
        multiplier := multiplier - 0.05;
      }
    }
    assert multiplier == 1.0 + GrowthAdjustment(results);
    var sentiment := Find(results, SentimentAgent);
    if sentiment.Some? {
      var s := Coalesce(sentiment.value.score);
      if s >= 75.0 {
        multiplier := multiplier + 0.08;
      } else if s >= 65.0 {
        multiplier := multiplier + 0.05;
      }
    }
    var value := Find(results, ValueAgent);
    if value.Some? && value.value.score >= 75.0 {
      multiplier := multiplier + 0.05;
    }
    var risk := Find(results, RiskAgent);
    if risk.Some? && risk.value.score < 30.0 {
      multiplier := multiplier - 0.10;
    }
    assert multiplier == RawMultiplier(results);
    if multiplier > 1.35 {
      multiplier := 1.35;
    }
    if multiplier < 0.85 {
      multiplier := 0.85;
    }
  }

  // ---------------------------------------------------------------------
  // Portfolio construction

  /** One portfolio entry. */
  datatype Position = Position(
    ticker: string,
    name: string,
    sector: string,
    finalScore: real,
    blendedScore: real,
    targetWeight: real,
    rationale: string,
    recommendation: Verdict,
    analysis: Analysis)

  /** The constructed portfolio and its summary. */
  datatype Portfolio = Portfolio(
    positions: seq<Position>,
    totalWeight: real,
    avgScore: real,
    sectorExposure: seq<(string, real)>,
    allAnalyses: seq<Analysis>)

  const KeyErrorRecommendation: string := "KeyError: 'recommendation'"
  const NoSelectorError: string := "AI Portfolio Selector not initialized. Check OpenAI and Gemini API keys."
  const ManualRationale: string := "Manually selected ticker"

  function FinalScoreOf(a: Analysis): real {
    a.finalScore
  }

  /** The portfolio entry for one analysis at the given weight. */
  function PositionOf(a: Analysis, weight: real): Position
    requires a.recommendation.Some?
  {
    var f := a.fundamentals.GetOr(NoFundamentals);
    Position(a.ticker, f.name.GetOr(a.ticker), f.sector.GetOr("Unknown"), a.finalScore, a.blendedScore,
             weight, a.aiRationale.GetOr("See comprehensive analysis"), a.recommendation.value, a)
  }

  predicate AllRecommended(stocks: seq<Analysis>) {
    forall i :: 0 <= i < |stocks| ==> stocks[i].recommendation.Some?
  }

  /** `sum(p['target_weight_pct'] for p in portfolio)`. */
  function TotalWeight(ps: seq<Position>): real {
    if ps == [] then 0.0 else TotalWeight(ps[..|ps| - 1]) + ps[|ps| - 1].targetWeight
  }

  function TotalScore(ps: seq<Position>): real {
    if ps == [] then 0.0 else TotalScore(ps[..|ps| - 1]) + ps[|ps| - 1].finalScore
  }

  /** `sector_exposure[s] = sector_exposure.get(s, 0) + w` over the positions. */
  function Exposure(ps: seq<Position>): seq<(string, real)> {
    if ps == [] then []
    else
      var prev := Exposure(ps[..|ps| - 1]);
      var p := ps[|ps| - 1];
      Accumulate(prev, p.sector, p.targetWeight)
  }

  /** `100 / len(portfolio_stocks)`, or 0 for an empty portfolio. */
  function EqualWeight(n: nat): real {
    if n > 0 then 100.0 / n as real else 0.0
  }

  /** The analyses kept: sorted by final score, highest first (a stable
      sort, so ties keep their order), and cut to `n`. */
  function Top(analyses: seq<Analysis>, n: nat): seq<Analysis> {
    Take(SortDesc(analyses, FinalScoreOf), n)
  }

  /** One position per kept analysis, all at weight `w`. */
  function Positions(top: seq<Analysis>, w: real): (ps: seq<Position>)
    requires AllRecommended(top)
    ensures |ps| == |top|
  {
    seq(|top|, i requires 0 <= i < |top| => PositionOf(top[i], w))
  }

  /** Portfolio construction from the analyses: keep the top `n`, weight them
      equally, summarise. Reading the recommendation of an error result
      raises `KeyError`. */
  function Construction(analyses: seq<Analysis>, n: nat): Result<Portfolio> {
    var top := Top(analyses, n);
    if !AllRecommended(top) then Err(KeyErrorRecommendation)
    else
      var ps := Positions(top, EqualWeight(|top|));
      Ok(Portfolio(ps, TotalWeight(ps), if ps != [] then TotalScore(ps) / |ps| as real else 0.0, Exposure(ps),
                   SortDesc(analyses, FinalScoreOf)))
  }

  /** The position loop: fails at the first analysis without a recommendation. */
  method BuildPositions(top: seq<Analysis>, w: real) returns (r: Option<seq<Position>>)
    ensures r.Some? <==> AllRecommended(top)
    ensures r.Some? ==> r.value == Positions(top, w)
  {
    var positions: seq<Position> := [];
    for i := 0 to |top|
      invariant AllRecommended(top[..i])
      invariant |positions| == i
      invariant forall j :: 0 <= j < i ==> positions[j] == PositionOf(top[j], w)
    {
      if top[i].recommendation.None? {
        assert !AllRecommended(top);
        return None;
      }
      positions := positions + [PositionOf(top[i], w)];
      assert top[..i + 1] == top[..i] + [top[i]];
    }
    assert top[..|top|] == top;
    r := Some(positions);
  }

  /** The summary loop: total weight, total score and sector exposure. */
  method Summarise(positions: seq<Position>) returns (totalWeight: real, totalScore: real, exposure: seq<(string, real)>)
    ensures totalWeight == TotalWeight(positions)
    ensures totalScore == TotalScore(positions)
    ensures exposure == Exposure(positions)
  {
    totalWeight := 0.0;
    totalScore := 0.0;
    exposure := [];
    for i := 0 to |positions|
      invariant totalWeight == TotalWeight(positions[..i])
      invariant totalScore == TotalScore(positions[..i])
      invariant exposure == Exposure(positions[..i])
    {
      var p := positions[i];
      assert positions[..i + 1][..i] == positions[..i];
      totalWeight := totalWeight + p.targetWeight;
      totalScore := totalScore + p.finalScore;
      exposure := Accumulate(exposure, p.sector, p.targetWeight);
    }
    assert positions[..|positions|] == positions;
  }

  /** Building the portfolio from the analyses. */
  method ConstructPortfolio(analyses: seq<Analysis>, n: nat) returns (r: Result<Portfolio>)
    ensures r == Construction(analyses, n)
  {
    var sorted := SortDesc(analyses, FinalScoreOf);
    var top := Take(sorted, n);
    var built := BuildPositions(top, EqualWeight(|top|));
    if built.None? {
      return Err(KeyErrorRecommendation);
    }
    var positions := built.value;
    var totalWeight, totalScore, exposure := Summarise(positions);
    var avgScore := if positions != [] then totalScore / |positions| as real else 0.0;
    r := Ok(Portfolio(positions, totalWeight, avgScore, exposure, sorted));
  }

  /** `N` equal shares make up 100. */
  lemma EqualShares(n: nat)
    requires n > 0
    ensures n as real * EqualWeight(n) == 100.0
  {
  }

  /** `n` copies of `w` sum to `n * w`. */
  lemma {:induction false} ConstantWeights(ps: seq<Position>, w: real)
    requires forall i :: 0 <= i < |ps| ==> ps[i].targetWeight == w
    ensures TotalWeight(ps) == |ps| as real * w
  {
    if ps != [] {
      ConstantWeights(ps[..|ps| - 1], w);
    }
  }

  /** The sector exposures add up to the total weight. */
  lemma {:induction false} ExposureAddsUp(ps: seq<Position>)
    ensures SumValues(Exposure(ps)) == TotalWeight(ps)
  {
    if ps != [] {
      var prev := ps[..|ps| - 1];
      ExposureAddsUp(prev);
      var p := ps[|ps| - 1];
      AccumulateAdds(Exposure(prev), p.sector, p.targetWeight);
    }
  }

  /** Construction fails exactly when a kept analysis is an error result. */
  lemma PortfolioFailure(analyses: seq<Analysis>, n: nat)
    requires forall i :: 0 <= i < |analyses| ==> (analyses[i].recommendation.None? <==> analyses[i].error.Some?)
    ensures Construction(analyses, n).Err? <==>
      exists i :: 0 <= i < |Top(analyses, n)| && Top(analyses, n)[i].error.Some?
    ensures Construction(analyses, n).Err? ==> Construction(analyses, n).error == KeyErrorRecommendation
  {
    var sorted := SortDesc(analyses, FinalScoreOf);
    forall i | 0 <= i < |sorted|
      ensures sorted[i].recommendation.None? <==> sorted[i].error.Some?
    {
      assert sorted[i] in multiset(analyses);
    }
  }

  /** The kept analyses are the `n` best (or all), highest score first: no
      position scores below any analysis left out. */
  lemma PortfolioRanking(analyses: seq<Analysis>, n: nat)
    requires Construction(analyses, n).Ok?
    ensures var p := Construction(analyses, n).value;
      && |p.positions| == (if n < |analyses| then n else |analyses|)
      && multiset(p.allAnalyses) == multiset(analyses)
      && SortedDesc(p.allAnalyses, FinalScoreOf)
      && (forall i :: 0 <= i < |p.positions| ==> p.positions[i].analysis == p.allAnalyses[i])
      && (forall i, j :: 0 <= i < j < |p.positions| ==> p.positions[i].finalScore >= p.positions[j].finalScore)
      && (forall i, j :: 0 <= i < |p.positions| <= j < |p.allAnalyses| ==> p.positions[i].finalScore >= p.allAnalyses[j].finalScore)
  {
    var sorted := SortDesc(analyses, FinalScoreOf);
    var p := Construction(analyses, n).value;
    forall i | 0 <= i < |p.positions|
      ensures p.positions[i].finalScore == FinalScoreOf(sorted[i]) && p.positions[i].analysis == sorted[i]
    {
    }
  }

  /** The ranking is stable: analyses with the same final score keep their
      input order in the full ranking, whose first N are the positions. */
  lemma PortfolioRankingStable(analyses: seq<Analysis>, n: nat, score: real)
    requires Construction(analyses, n).Ok?
    ensures var p := Construction(analyses, n).value;
      KeyRun(p.allAnalyses, FinalScoreOf, score) == KeyRun(analyses, FinalScoreOf, score)
  {
    SortDescStable(analyses, FinalScoreOf, score);
  }

  /** Every position weighs `100 / N`, the weights sum to 100, and the sector
      exposures sum to the same total. */
  lemma PortfolioWeights(analyses: seq<Analysis>, n: nat)
    requires Construction(analyses, n).Ok?
    ensures var p := Construction(analyses, n).value;
      && (forall i :: 0 <= i < |p.positions| ==> p.positions[i].targetWeight == EqualWeight(|p.positions|))
      && (p.positions != [] ==> p.totalWeight == 100.0)
      && SumValues(p.sectorExposure) == p.totalWeight
  {
    var top := Top(analyses, n);
    var ps := Positions(top, EqualWeight(|top|));
    ConstructionParts(analyses, n);
    assert forall i :: 0 <= i < |ps| ==> ps[i].targetWeight == EqualWeight(|ps|) by {
      forall i | 0 <= i < |ps|
        ensures ps[i].targetWeight == EqualWeight(|ps|)
      {
        assert ps[i] == PositionOf(top[i], EqualWeight(|top|));
      }
    }
    if ps != [] {
      EqualWeightsTotal(ps);
    }
    ExposureAddsUp(ps);
  }

  /** Positions all at the equal weight total 100. */
  lemma EqualWeightsTotal(ps: seq<Position>)
    requires ps != []
    requires forall i :: 0 <= i < |ps| ==> ps[i].targetWeight == EqualWeight(|ps|)
    ensures TotalWeight(ps) == 100.0
  {
    ConstantWeights(ps, EqualWeight(|ps|));
    EqualShares(|ps|);
  }

  /** The fields of a constructed portfolio, each in terms of the kept analyses. */
  lemma ConstructionParts(analyses: seq<Analysis>, n: nat)
    requires Construction(analyses, n).Ok?
    ensures var top := Top(analyses, n);
      && AllRecommended(top)
      && var p := Construction(analyses, n).value;
      && p.positions == Positions(top, EqualWeight(|top|))
      && p.totalWeight == TotalWeight(p.positions)
      && p.sectorExposure == Exposure(p.positions)
  {
  }

  // ---------------------------------------------------------------------
  // Recommendation flow

  /** The tickers to analyse and their rationales: the AI selection, or the
      first `n` manual tickers with a fixed rationale. */
  function Universe(hasSelector: bool, geminiReady: bool, tickers: Option<seq<string>>, n: nat,
                    openai: Selection.Query -> Selection.CallScript, gemini: Result<string>,
                    decode: Selection.Decoder): Result<(seq<string>, seq<(string, string)>)>
  {
    if tickers.None? then
      if !hasSelector then Err(NoSelectorError)
      else
        match Selection.Plan(openai, geminiReady, gemini, decode)
        case Err(e) => Err(e)
        case Ok(s) => Ok((s.finalTickers, s.tickerRationales))
    else
      var selected := Take(tickers.value, n);
      Ok((selected, seq(|selected|, i requires 0 <= i < |selected| => (selected[i], ManualRationale))))
  }

  /** Each selected ticker analysed under the standing weights, with its
      rationale attached when it has one. */
  function AnalyzeAll(weights: seq<(AgentId, real)>, selected: seq<string>, rationales: seq<(string, string)>,
                      data: string -> Gathered, run: string -> AgentId -> AgentReply): (r: seq<Analysis>)
    ensures |r| == |selected|
  {
    seq(|selected|, i requires 0 <= i < |selected| => AnalyzeTicker(weights, selected[i], rationales, data, run))
  }

  /** One selected ticker analysed, with its rationale attached. */
  function AnalyzeTicker(weights: seq<(AgentId, real)>, ticker: string, rationales: seq<(string, string)>,
                         data: string -> Gathered, run: string -> AgentId -> AgentReply): Analysis
  {
    Analyze(weights, ticker, [], data(ticker), run(ticker)).(aiRationale := Find(rationales, ticker))
  }

  function Recommendation(weights: seq<(AgentId, real)>, hasSelector: bool, geminiReady: bool,
                          tickers: Option<seq<string>>, n: nat,
                          openai: Selection.Query -> Selection.CallScript, gemini: Result<string>, decode: Selection.Decoder,
                          data: string -> Gathered, run: string -> AgentId -> AgentReply): Result<Portfolio>
  {
    match Universe(hasSelector, geminiReady, tickers, n, openai, gemini, decode)
    case Err(e) => Err(e)
    case Ok(u) => Construction(AnalyzeAll(weights, u.0, u.1, data, run), n)
  }

  /** Without tickers and without a selector the request fails; a manual list
      is cut to `n` tickers, each analysed. */
  lemma RecommendationSources(weights: seq<(AgentId, real)>, geminiReady: bool, tickers: Option<seq<string>>, n: nat,
                              openai: Selection.Query -> Selection.CallScript, gemini: Result<string>, decode: Selection.Decoder,
                              data: string -> Gathered, run: string -> AgentId -> AgentReply)
    ensures tickers.None? ==> Recommendation(weights, false, geminiReady, tickers, n, openai, gemini, decode, data, run) == Err(NoSelectorError)
    ensures tickers.Some? ==>
      var u := Universe(false, geminiReady, tickers, n, openai, gemini, decode);
      && u.Ok? && u.value.0 == Take(tickers.value, n) && |u.value.0| <= n
      && forall i :: 0 <= i < |u.value.1| ==> u.value.1[i].1 == ManualRationale
  {
  }

  class PortfolioOrchestrator {
    /** `agent_weights`, keyed by agent, in insertion order. */
    var agentWeights: seq<(AgentId, real)>
    const ips: IpsConfig
    /** The AI selector, present only when both an OpenAI client and a
        Gemini key were given. */
    const selector: Selection.PortfolioSelector?

    constructor(ips: IpsConfig, openaiClient: bool, geminiKey: bool, geminiSetupSucceeds: bool)
      ensures this.ips == ips && agentWeights == DefaultWeights(ips.agentWeights)
      ensures (selector != null) <==> openaiClient && geminiKey
      ensures selector != null ==> fresh(selector) && selector.geminiReady == geminiSetupSucceeds
    {
      this.ips := ips;
      if openaiClient && geminiKey {
        selector := new Selection.PortfolioSelector(true, geminiSetupSucceeds);
      } else {
        selector := null;
      }
      agentWeights := DefaultWeights(ips.agentWeights);
    }

    /** Applies the overrides in order to the weights in place. */
    method ApplyWeightOverride(overrides: seq<(string, real)>)
      modifies this
      ensures agentWeights == Overridden(old(agentWeights), overrides)
    {
      for i := 0 to |overrides|
        invariant agentWeights == Overridden(old(agentWeights), overrides[..i])
      {
        assert overrides[..i + 1][..i] == overrides[..i];
        var key := AgentKeyFor(overrides[i].0);
        if key.Some? && key.value in KeysOf(agentWeights) {
          agentWeights := Put(agentWeights, key.value, overrides[i].1);
        }
      }
      assert overrides[..|overrides|] == overrides;
    }

    /** `_blend_scores` under the standing weights. */
    method BlendScores(results: seq<(AgentId, AgentResult)>) returns (score: real)
      ensures score == BlendedScore(agentWeights, results)
    {
      var base := WeightedAverage(agentWeights, results);
      var multiplier := UpsideMultiplier(results);
      score := Blend(base, multiplier);
    }

    /** `analyze_single_stock`: override the weights, gather data (errors
        return early, leaving the override), run every agent, blend, restore. */
    method AnalyzeSingleStock(ticker: string, overrides: seq<(string, real)>, gathered: Gathered, run: AgentId -> AgentReply)
      returns (a: Analysis)
      modifies this
      ensures a == Analyze(old(agentWeights), ticker, overrides, gathered, run)
      ensures agentWeights == WeightsAfter(old(agentWeights), overrides, gathered)
    {
      var original := agentWeights;
      if overrides != [] {
        ApplyWeightOverride(overrides);
      }
      assert agentWeights == EffectiveWeights(original, overrides);
      if gathered.GatherRaised? {
        return ErrorAnalysis(ticker, "Data gathering failed: " + gathered.message);
      }
      if gathered.fundamentals.None? {
        return ErrorAnalysis(ticker, "No data available");
      }

      var results := RunAllAgents(run);
      var blended := BlendScores(results);
      ghost var w := EffectiveWeights(original, overrides);
      assert blended == BlendedScore(w, results);
      var finalScore := blended;
      if overrides != [] {
        agentWeights := original;
      }
      var scores := AgentScores(results);
      a := Analysis(ticker, None, gathered.fundamentals, results, scores, blended, finalScore, true, Some(Recommend(finalScore)), None);
      assert gathered == GatherReturned(Some(gathered.fundamentals.value));
    }

    /** `recommend_portfolio`: pick the tickers, analyse each, build the
        portfolio. The standing weights are left as they were; the
        selector's clock moves only by the calls of an AI selection. */
    method RecommendPortfolio(tickers: Option<seq<string>>, n: nat,
                              openai: Selection.Query -> Selection.CallScript, gemini: Result<string>, decode: Selection.Decoder,
                              data: string -> Gathered, run: string -> AgentId -> AgentReply)
      returns (r: Result<Portfolio>)
      modifies this, selector
      ensures r == Recommendation(old(agentWeights), selector != null, selector != null && selector.geminiReady,
                                  tickers, n, openai, gemini, decode, data, run)
      ensures agentWeights == old(agentWeights)
      ensures selector != null ==>
                selector.lastApiCallTime ==
                  if tickers.None?
                  then Selection.ClockAfter(old(selector.lastApiCallTime), openai,
                                            Selection.PlanQueries(openai, selector.geminiReady, gemini, decode))
                  else old(selector.lastApiCallTime)
    {
      var universe := ChooseTickers(tickers, n, openai, gemini, decode);
      if universe.Err? {
        return Err(universe.error);
      }
      var analyses := AnalyzeSelected(universe.value.0, universe.value.1, data, run);
      r := ConstructPortfolio(analyses, n);
    }

    /** The tickers to analyse: the AI selection when none are given. */
    method ChooseTickers(tickers: Option<seq<string>>, n: nat,
                         openai: Selection.Query -> Selection.CallScript, gemini: Result<string>, decode: Selection.Decoder)
      returns (u: Result<(seq<string>, seq<(string, string)>)>)
      modifies selector
      ensures u == Universe(selector != null, selector != null && selector.geminiReady, tickers, n, openai, gemini, decode)
      ensures selector != null ==>
                selector.lastApiCallTime ==
                  if tickers.None?
                  then Selection.ClockAfter(old(selector.lastApiCallTime), openai,
                                            Selection.PlanQueries(openai, selector.geminiReady, gemini, decode))
                  else old(selector.lastApiCallTime)
    {
      if tickers.None? {
        if selector == null {
          return Err(NoSelectorError);
        }
        var chosen := selector.SelectPortfolioTickers(openai, gemini, decode);
        if chosen.Err? {
          return Err(chosen.error);
        }
        u := Ok((chosen.value.finalTickers, chosen.value.tickerRationales));
      } else {
        var selected := Take(tickers.value, n);
        u := Ok((selected, seq(|selected|, i requires 0 <= i < |selected| => (selected[i], ManualRationale))));
      }
    }

    /** Analyses every selected ticker without overrides and attaches its
        rationale when it has one. */
    method AnalyzeSelected(selected: seq<string>, rationales: seq<(string, string)>,
                           data: string -> Gathered, run: string -> AgentId -> AgentReply)
      returns (analyses: seq<Analysis>)
      modifies this
      ensures analyses == AnalyzeAll(old(agentWeights), selected, rationales, data, run)
      ensures agentWeights == old(agentWeights)
    {
      analyses := [];
      for i := 0 to |selected|
        invariant agentWeights == old(agentWeights)
        invariant |analyses| == i
        invariant forall j :: 0 <= j < i ==> analyses[j] == AnalyzeTicker(agentWeights, selected[j], rationales, data, run)
      {
        var t := selected[i];
        var analysis := AnalyzeSingleStock(t, [], data(t), run(t));
        analysis := analysis.(aiRationale := Find(rationales, t));
        analyses := analyses + [analysis];
      }
      assert forall j :: 0 <= j < |selected| ==> AnalyzeAll(agentWeights, selected, rationales, data, run)[j] == analyses[j];
    }
  }
}
