# Wharton investment analysis — decision layer in Dafny

This project models the deterministic decision layer of the multi-agent
stock-analysis platform: everything around the language-model and
market-data calls that decides what the user sees. Every model reply,
data-provider result, secrets-store lookup and clock reading is a
parameter (an oracle function or a scripted sequence of outcomes); scores
and durations are `real`s.

Modules, one per part of the program:

| module | file | models |
|---|---|---|
| `Wrappers` | wrappers.dfy | `Option` and `Result` (an error carries its message) |
| `Text` | text.dfy | ASCII case mapping, Python whitespace stripping, `str.replace(p, '')`, decimal rendering of naturals |
| `Collections` | collections.dfy | first-occurrence de-duplication, insertion-ordered dictionaries as association lists, the descending `list.sort(key=..., reverse=True)`, the "append then keep the newest N" list |
| `Session` | session.dfy | the UI session state (`analysis_times`, `_eta_previous`, `user_api_keys`) as a class |
| `Scoring` | scoring.dfy | the pure rules of the portfolio orchestrator: agent-result settling, the weighted blend, the upside multiplier, recommendation labels, IPS eligibility, the weight override |
| `Eta` | eta.dfy | `_estimate_time_remaining` on the session, and its " ~Ns" / " ~Mm Ss" text |
| `Selection` | selector.dfy | the AI portfolio selector: the throttled retry loop, the six-stage selection with its fallbacks, the class `PortfolioSelector` |
| `Orchestration` | orchestrator.dfy | the class `PortfolioOrchestrator`: per-stock analysis with the agent loop and weight override, score blending, and `recommend_portfolio`'s ranking, equal weights and sector exposure |
| `Timing` | timing.dfy | the class `DynamicTimeEstimator` of the performance engine |
| `Movements` | movements.dfy | the movement pipeline of the performance engine: cell parsing, missing-price fill, threshold filter and sort, quick insights, pattern recommendations, the report and its bounded history |
| `Citations` | citations.dfy | the base agent's score normalisation, citation post-processing and reference formatting |
| `Display` | display.dfy | the UI helpers: ticker-list parsing, score gradient colour, market-cap category, agent collaboration, key factors, assessment labels |
| `ApiKeys` | api_keys.dfy | the API-key manager's precedence: session, then secrets store, then environment |

Operations that work step by step in the program are methods proved against
a specification function, and the program's promises are proved about those
functions. This covers the blend loop, the agent loop, the retry loop, the
stage log, the rationale loop, the phase timer, the movement loops and the
reference formatter. Objects whose fields the program updates are classes:
the orchestrator's `agent_weights`, the selector's `last_api_call_time`, the
estimator's phase state and the session state.

Points worth noting about the code:

- The final score is `base × multiplier` and is not clamped again. Five agents scoring 100 give 128 (`Scoring.PerfectScoresBlendTo128`).
- The multiplier's clamp to [0.85, 1.35] never binds, because the bands reach only [0.85, 1.28].
- For agent scores 80/85/50/60/78 the default weights give a base of 75.7 and a final score of 96.896, a STRONG BUY (`Scoring.WorkedExample`).
- The IPS eligibility check is modelled as a rule (`Scoring.EligibilityRules`), but the analysis path never calls it. Every successful analysis is marked eligible, as in the code.

## Model

| member | source | states |
|---|---|---|
| Scoring.Settle | engine/portfolio_orchestrator.py:230-257 | an agent that raises is stored as failed with its message; otherwise the reported score is stored unchanged, a missing one as 50, and rationale and details are kept; a missing rationale is stored as failed; the stored score reads as 50 exactly when the agent gave no usable score (missing, zero or 50) |
| Scoring.AgentScores | engine/portfolio_orchestrator.py:275 | every agent gets a score entry, with a missing or falsy score replaced by 50 (so none is 0) |
| Scoring.WeightedTotalBetween | engine/portfolio_orchestrator.py:414-420 | with non-negative weights and every matched coalesced score in [lo, hi], the weighted sum lies between lo and hi times the matched weight |
| Scoring.BaseScoreBetween | engine/portfolio_orchestrator.py:414-420 | with non-negative weights and a positive matched weight, the base score lies between any bounds of the matched coalesced scores, so between their smallest and largest |
| Scoring.BaseScoreWithin | engine/portfolio_orchestrator.py:414-420 | the weighted-average base score lies in [0, 100] and is 50 when no weight matches |
| Scoring.RawMultiplier | engine/portfolio_orchestrator.py:425-468 | the sum of the growth, sentiment, value and risk band adjustments stays within [0.85, 1.28] |
| Scoring.Multiplier | engine/portfolio_orchestrator.py:425-470 | clamping to [0.85, 1.35] leaves the unclamped multiplier unchanged |
| Scoring.BlendedScoreRange | engine/portfolio_orchestrator.py:401-483 | the final blended score lies in [0, 128], not [0, 100] |
| Scoring.PerfectScoresBlendTo128 | engine/portfolio_orchestrator.py:472 | five agents at 100 with default weights give a final score of exactly 128 |
| Scoring.DefaultWeights | engine/portfolio_orchestrator.py:68-75 | the weight table has exactly the five agents, in order |
| Scoring.DefaultBase | engine/portfolio_orchestrator.py:414-420 | with default weights and non-zero scores the base is 0.20·value + 0.40·growth + 0.10·macro + 0.15·risk + 0.15·sentiment |
| Scoring.WorkedExample | engine/portfolio_orchestrator.py:401-496 | scores 80/85/50/60/78 give base 75.7, multiplier 1.28, final 96.896 and STRONG BUY |
| Scoring.Recommend | engine/portfolio_orchestrator.py:485-496 | the label's strength is the step function with breakpoints 80/70/60/40 |
| Scoring.RecommendMonotone | engine/portfolio_orchestrator.py:485-496 | a higher score never gets a weaker label |
| Scoring.EligibilityRules | engine/portfolio_orchestrator.py:561-592 | eligible iff truthy price and market cap meet their minimums, the sector is not excluded (case-insensitively), and a truthy beta lies in [beta_min, beta_max] with defaults 0 and 999 |
| Scoring.MissingDataIsEligible | engine/portfolio_orchestrator.py:561-592 | a stock with no fundamentals passes every IPS rule |
| Scoring.AgentKeyFor | engine/portfolio_orchestrator.py:127-138 | an override name maps to an agent only when it is that agent's simplified name or full key |
| Scoring.OverriddenWeights | engine/portfolio_orchestrator.py:125-140 | the override keeps the agent keys; an agent takes the last override naming it and keeps its weight otherwise |
| Orchestration.RunAgents | engine/portfolio_orchestrator.py:208-257 | every agent gets exactly one result, settled from its reply |
| Orchestration.RunAllAgents | engine/portfolio_orchestrator.py:208-257 | the agent loop produces the settled results of all five agents |
| Orchestration.AnalysisOutcome | engine/portfolio_orchestrator.py:79-291 | an analysis is eligible, has a recommendation and no error iff data was gathered; then every agent has a result and a score, and final = blended score with the matching label; otherwise the final score is 0 and there are no agent results |
| Orchestration.RaisingAgentIsNeutral | engine/portfolio_orchestrator.py:251-257 | an agent that raises is recorded as failed with its message and scores 50 |
| Orchestration.AnalysisScoreRange | engine/portfolio_orchestrator.py:261-266 | with non-negative weights and agent scores in [0, 100], an analysis' final score lies in [0, 128] |
| Orchestration.OverrideLeaksOnEarlyError | engine/portfolio_orchestrator.py:145-178 | when data gathering fails, the overridden weight stays in place after the call |
| Orchestration.WeightedAverage | engine/portfolio_orchestrator.py:414-420 | the accumulation loop computes the weighted-average base score |
| Orchestration.UpsideMultiplier | engine/portfolio_orchestrator.py:425-470 | the step-by-step multiplier equals the band multiplier and lies in [0.85, 1.28] |
| Orchestration.BuildPositions | engine/portfolio_orchestrator.py:952-965 | positions are built iff every top analysis carries a recommendation |
| Orchestration.Summarise | engine/portfolio_orchestrator.py:968-976 | the summary loops compute total weight, total score and per-sector exposure |
| Orchestration.ConstructPortfolio | engine/portfolio_orchestrator.py:944-985 | sorting, truncation, sizing and summary produce the specified portfolio or its KeyError |
| Orchestration.EqualShares | engine/portfolio_orchestrator.py:950 | n equal shares of 100/n add up to 100 |
| Orchestration.ConstantWeights | engine/portfolio_orchestrator.py:968 | positions of equal weight w total n·w |
| Orchestration.ExposureAddsUp | engine/portfolio_orchestrator.py:971-976 | the sector exposures sum to the total weight |
| Orchestration.PortfolioFailure | engine/portfolio_orchestrator.py:963 | construction fails iff an error analysis lands in the top N, and the failure is the missing 'recommendation' key |
| Orchestration.PortfolioRankingStable | engine/portfolio_orchestrator.py:944 | analyses with equal final scores keep their input order in the ranking, as Python's stable sort keeps them |
| Orchestration.PortfolioRanking | engine/portfolio_orchestrator.py:944-947 | min(N, count) positions are kept; all analyses are a permutation of the input sorted by final score descending; every kept position scores at least as high as every dropped analysis |
| Orchestration.PortfolioWeights | engine/portfolio_orchestrator.py:950-976 | every position weighs 100/N, a non-empty portfolio totals 100, and sector exposure sums to the total |
| Orchestration.EqualWeightsTotal | engine/portfolio_orchestrator.py:950 | positions all weighing 100/n total 100 |
| Orchestration.ConstructionParts | engine/portfolio_orchestrator.py:947-976 | a built portfolio's positions, total weight and exposure are those of the top N analyses |
| Orchestration.AnalyzeAll | engine/portfolio_orchestrator.py:918-938 | every selected ticker yields one analysis |
| Orchestration.RecommendationSources | engine/portfolio_orchestrator.py:889-912 | without tickers and without a selector the call fails with the ValueError; a manual list is cut to num_positions and every ticker gets the manual rationale |
| Orchestration.PortfolioOrchestrator.constructor | engine/portfolio_orchestrator.py:31-77 | the weights are the configured or default five agent weights, and a selector exists iff both an OpenAI client and a Gemini key are given |
| Orchestration.PortfolioOrchestrator.ApplyWeightOverride | engine/portfolio_orchestrator.py:125-140 | the override rewrites the weights as specified by the override rule |
| Orchestration.PortfolioOrchestrator.BlendScores | engine/portfolio_orchestrator.py:401-483 | the blend computes the blended score of the current weights |
| Orchestration.PortfolioOrchestrator.AnalyzeSingleStock | engine/portfolio_orchestrator.py:79-291 | the analysis is the specified outcome under the overridden weights; afterwards the weights are restored on success and left overridden on an early error |
| Orchestration.PortfolioOrchestrator.RecommendPortfolio | engine/portfolio_orchestrator.py:847-997 | the result is the specified selection, analysis and construction; the weights are unchanged; the selector's last-call clock is advanced by exactly the throttled calls of the AI selection when no tickers are given, and unchanged otherwise |
| Orchestration.PortfolioOrchestrator.ChooseTickers | engine/portfolio_orchestrator.py:889-912 | ticker choice is the AI selection, the manual list or the missing-selector error; the selector's last-call clock follows the AI selection's throttled calls, or is unchanged for a manual list |
| Orchestration.PortfolioOrchestrator.AnalyzeSelected | engine/portfolio_orchestrator.py:918-938 | the analysis loop analyses every selected ticker in order and leaves the weights unchanged |
| Eta.Mix | engine/portfolio_orchestrator.py:356-366 | the blended historical/rate estimate lies between the two estimates |
| Eta.Smooth | engine/portfolio_orchestrator.py:369-381 | with a positive previous estimate the new one is at most 1.06 times it and, for a non-negative estimate, at least 0.7 times it; without one the estimate passes through |
| Eta.Decay | engine/portfolio_orchestrator.py:384-386 | from 85% the estimate shrinks toward 0, reaching 0 at 100%; before 85% it is unchanged |
| Eta.EstimateTimeRemaining | engine/portfolio_orchestrator.py:323-399 | the text is the specified estimate; only `_eta_previous` changes, and only when an estimate is stored |
| Eta.StoredEstimateBounded | engine/portfolio_orchestrator.py:369-381 | a stored estimate never exceeds 1.06 times a positive previous one |
| Eta.SilentAtCompletion | engine/portfolio_orchestrator.py:384-389 | at 100% or more the text is empty |
| Eta.FormatSecondsReadsBack | engine/portfolio_orchestrator.py:389-399 | " ~Ns" and " ~Mm Ss" read back as the same whole number of seconds |
| Eta.DisplayReadsBack | engine/portfolio_orchestrator.py:389-399 | the displayed text is empty or reads back as at least one second |
| Selection.RetryFrom | engine/ai_portfolio_selector.py:73-94 | at most 3 attempts; success iff a call succeeded, carrying that call's reply and clock; otherwise the last error |
| Selection.RetryBackoffs | engine/ai_portfolio_selector.py:82-86 | one back-off sleep before each retry, of 10 s times the number of the attempt that hit the rate limit (10 s, then 20 s) |
| Selection.InitialWait | engine/ai_portfolio_selector.py:63-71 | the throttle sleeps exactly the missing part of 0.5 s, and not at all once 0.5 s have passed |
| Selection.OtherErrorsNotRetried | engine/ai_portfolio_selector.py:90-92 | an error that is not a rate limit is raised after one attempt, with no backoff |
| Selection.RateLimitedThrice | engine/ai_portfolio_selector.py:82-89 | three rate-limit errors back off 10 s and 20 s and re-raise the third |
| Selection.LastCallMovesOnSuccess | engine/ai_portfolio_selector.py:76-79 | the last-call time changes only on success, to the clock of the successful attempt |
| Selection.FencedReplyUnwrapped | engine/ai_portfolio_selector.py:299-303 | a ```json-fenced reply is unwrapped to its trimmed body on both the OpenAI and the Gemini paths |
| Selection.Proposal | engine/ai_portfolio_selector.py:285-322 | a decodable reply gives its list; a failed call or undecodable reply gives the first num_tickers fallbacks |
| Selection.PickFive | engine/ai_portfolio_selector.py:505-529 | a round yields at most 5 tickers, and the first 5 of the pool on failure |
| Selection.Rationales | engine/ai_portfolio_selector.py:162-170 | exactly one rationale per candidate, in candidate order |
| Selection.FirstUnexplained | engine/ai_portfolio_selector.py:542-545 | reports a finalist without a rationale exactly when there is one |
| Selection.Explain | engine/ai_portfolio_selector.py:231 | each final ticker is paired with its own rationale |
| Selection.Consolidate | engine/ai_portfolio_selector.py:196-212 | at most 5 finals, all with rationales; 5 or fewer finalists pass unchanged, more are narrowed; a finalist without a rationale is the KeyError |
| Selection.PortfolioSelector.constructor | engine/ai_portfolio_selector.py:31-54 | Gemini is ready iff a key is given and its setup succeeds; no call has been made |
| Selection.PortfolioSelector.RateLimitedCall | engine/ai_portfolio_selector.py:58-94 | the throttled call's outcome and the new last-call time are those specified |
| Selection.PortfolioSelector.RetryLoop | engine/ai_portfolio_selector.py:73-94 | the retry loop computes the specified attempt sequence |
| Selection.PortfolioSelector.Ask | engine/ai_portfolio_selector.py:58-94 | a model query returns the throttled call's reply |
| Selection.PortfolioSelector.GenerateRationales | engine/ai_portfolio_selector.py:162-175 | the rationale loop produces one rationale per candidate, and the last-call clock ends where one throttled call per candidate, in order, leaves it |
| Selection.PortfolioSelector.SelectionRounds | engine/ai_portfolio_selector.py:177-194 | the three rounds are three independent top-5 selections over the candidates, and the clock ends where the three throttled round calls leave it |
| Selection.PortfolioSelector.SelectPortfolioTickers | engine/ai_portfolio_selector.py:96-237 | the stage-by-stage run produces the specified selection, and the clock ends where the run's throttled OpenAI calls (initial, one per candidate, three rounds, narrowing when made) leave it; the Gemini call does not move it |
| Selection.PortfolioSelector.Conclude | engine/ai_portfolio_selector.py:196-237 | consolidation and the result assembly produce the specified outcome; the clock moves by the narrowing call exactly when more than 5 distinct finalists all have rationales, and stays put otherwise |
| Selection.FinishShape | engine/ai_portfolio_selector.py:214-237 | the consolidation stage is appended after the earlier log unchanged; at most 5 finals, each with its own rationale |
| Selection.CompletedRun | engine/ai_portfolio_selector.py:96-237 | the log has the six stages in order; aggregation holds the duplicate-free union of both proposals, its count is its length, it is no larger than the two lists together; every candidate has one rationale; rounds and finals have at most 5 tickers |
| Selection.PooledCandidates | engine/ai_portfolio_selector.py:152-160 | a ticker is a candidate exactly when either selector proposed it, and the pool is no larger than both lists |
| Selection.FallbackPool | engine/ai_portfolio_selector.py:150-160 | the pooled fallback lists hold exactly 40 tickers, each from one of the two lists |
| Selection.FallbackProposals | engine/ai_portfolio_selector.py:317-322 | a failed OpenAI call and a missing Gemini model give the two fixed 20-ticker lists |
| Selection.TemplateRationales | engine/ai_portfolio_selector.py:461-463 | when every rationale call fails, each candidate gets the template naming it |
| Selection.UnanimousRounds | engine/ai_portfolio_selector.py:198-212 | three identical rounds of at most 5 distinct explained tickers make no narrowing call and are the final selection in some order |
| Selection.FinishChosen | engine/ai_portfolio_selector.py:198-212 | the finals are the consolidation of the de-duplicated union of the three rounds |
| Selection.ConsolidateFew | engine/ai_portfolio_selector.py:206-212 | 5 or fewer explained finalists are the final selection without narrowing |
| Selection.TotalOutage | engine/ai_portfolio_selector.py:96-237 | with every OpenAI call failing and no Gemini, selection still succeeds: the candidates are the 40 distinct fallback tickers, every rationale is the template, the three rounds agree, and the finals are those five distinct candidates in some order |
| Selection.OutageRounds | engine/ai_portfolio_selector.py:527-529 | when the three top-5 calls fail every round is the first 5 candidates |
| Selection.OutageSelection | engine/ai_portfolio_selector.py:198-212 | when every round is the first 5 of distinct candidates, no narrowing call is made and the finals are those five in some order |
| Selection.OutageCalls | engine/ai_portfolio_selector.py:96-237 | with every OpenAI call failing, a run makes no narrowing request and leaves the last-call clock unchanged |
| Selection.ClockStill | engine/ai_portfolio_selector.py:74-79 | throttled calls that all fail leave the last-call clock unchanged |
| Selection.ClockAtLastSuccess | engine/ai_portfolio_selector.py:74-79 | after a run of throttled calls the clock reads the finishing time of the last call that succeeded |
| Selection.ClockAfterConcat | engine/ai_portfolio_selector.py:74-79 | two runs of calls move the clock as their concatenation does |
| Timing.UpdatedKeepsKeys | utils/performance_analysis_engine_v2.py:87-88 | loading stored averages never drops a default phase |
| Timing.Smoothed | utils/performance_analysis_engine_v2.py:104 | the 0.7/0.3 moving average lies between the old average and the observed time |
| Timing.RefineOneValue | utils/performance_analysis_engine_v2.py:102-106 | refining one phase smooths a known key, sets a new one and leaves other keys alone |
| Timing.RefinedValue | utils/performance_analysis_engine_v2.py:99-106 | after refinement every phase timed this run is smoothed or set, and every other key is unchanged |
| Timing.RefinedKeepsKeys | utils/performance_analysis_engine_v2.py:99-106 | refinement keeps all default phases |
| Timing.PerMovementNeverRefined | utils/performance_analysis_engine_v2.py:99-106 | the per-movement average is never refined, since no phase carries that name |
| Timing.InitialHasDefaults | utils/performance_analysis_engine_v2.py:70-75 | the defaults cover the four phases and the per-movement time |
| Timing.LaterPhases | utils/performance_analysis_engine_v2.py:187-195 | at most three phases follow the current one |
| Timing.LaterPhasesInOrder | utils/performance_analysis_engine_v2.py:188-195 | the later phases are those strictly after the current one in the fixed order, and none for an unknown phase |
| Timing.DynamicTimeEstimator.constructor | utils/performance_analysis_engine_v2.py:63-91 | a new estimator has no phase open, no times and the defaults updated by the stored history |
| Timing.DynamicTimeEstimator.StartTotal | utils/performance_analysis_engine_v2.py:118-121 | starting the total timer sets its start and clears the phase times |
| Timing.DynamicTimeEstimator.CloseOpenPhase | utils/performance_analysis_engine_v2.py:126-129 | an open phase's duration is recorded; nothing else changes |
| Timing.DynamicTimeEstimator.StartPhase | utils/performance_analysis_engine_v2.py:123-132 | the open phase's duration is recorded, then the new phase is open from now |
| Timing.DynamicTimeEstimator.EndPhase | utils/performance_analysis_engine_v2.py:134-141 | an open phase is recorded and closed; with none open nothing changes |
| Timing.DynamicTimeEstimator.SaveHistory | utils/performance_analysis_engine_v2.py:93-116 | the averages become their refinement by this run's phase times; the timer state is unchanged |
| Timing.DynamicTimeEstimator.RefineAll | utils/performance_analysis_engine_v2.py:100-106 | the refinement loop computes the specified refinement |
| Timing.DynamicTimeEstimator.Finalize | utils/performance_analysis_engine_v2.py:228-237 | finalizing closes the open phase, refines the averages and returns the total elapsed time, or 0 with no total start |
| Timing.DynamicTimeEstimator.Remaining | utils/performance_analysis_engine_v2.py:143-226 | the remaining-time estimate is never under 0.5 s |
| Timing.DynamicTimeEstimator.EstimateRemaining | utils/performance_analysis_engine_v2.py:143-226 | the step-by-step estimate equals the specified estimate |
| Timing.DynamicTimeEstimator.SumLaterPhases | utils/performance_analysis_engine_v2.py:197-208 | the loop sums the historical time of the later phases |
| Timing.DynamicTimeEstimator.SumClosedPhases | utils/performance_analysis_engine_v2.py:213-220 | the loop sums the expected time of the phases already timed |
| Timing.DynamicTimeEstimator.EarlyEstimates | utils/performance_analysis_engine_v2.py:178-185 | in the last phase nothing is added after it, and an unknown phase counts as one second scaled by the fraction left |
| Timing.DynamicTimeEstimator.RecommendationPhaseEstimate | utils/performance_analysis_engine_v2.py:178-208 | at the start of the recommendation phase the estimate is its average plus the report phase's |
| Movements.PercentTextCleaned | utils/performance_analysis_engine_v2.py:509 | percent text reaches the parser without '%' and ',' |
| Movements.PriceTextCleaned | utils/performance_analysis_engine_v2.py:520 | price text reaches the parser without ',' and '$' |
| Movements.ParserSeesCleanedText | utils/performance_analysis_engine_v2.py:492-528 | the percent change depends on the number parser only through cleaned text |
| Movements.PlaceholdersFallBack | utils/performance_analysis_engine_v2.py:497-528 | empty, 'nan', 'n/a', '-' and 'none' percent cells fall back to the price columns |
| Movements.PriceFallback | utils/performance_analysis_engine_v2.py:515-524 | with no percent column the change is (now − at)/at·100 for a positive price at analysis |
| Movements.MovedChange | utils/performance_analysis_engine_v2.py:557-564 | a price derived from the other by the change reproduces that change |
| Movements.FilledMatchesChange | utils/performance_analysis_engine_v2.py:556-566 | filling a missing price keeps the recorded change, and fails only when a zero start would need a −100% change |
| Movements.ReadPrice | utils/performance_analysis_engine_v2.py:536-554 | the column scan finds the first parsable price |
| Movements.ExtractPrices | utils/performance_analysis_engine_v2.py:530-566 | price extraction gives the specified prices, with start 100 when both are missing |
| Movements.Movement.ChangeAbs | utils/performance_analysis_engine_v2.py:42-44 | the absolute change is |pct| |
| Movements.CandidatesWellFormed | utils/performance_analysis_engine_v2.py:402-441 | each kept row gives a movement of at least the threshold with the matching magnitude band |
| Movements.CandidatesKeepRows | utils/performance_analysis_engine_v2.py:402-441 | no qualifying row is lost: every movement a row yields is among the candidates |
| Movements.CandidatesFromRows | utils/performance_analysis_engine_v2.py:402-441 | nothing is added: every candidate is the movement of some row |
| Movements.IdentifiedMovements | utils/performance_analysis_engine_v2.py:373-451 | identified movements are well formed, no more than the rows, and sorted by absolute change descending; when the rows can be filtered they are the candidates' multiset, and a movement is listed exactly when some row yields it; asking for tickers without a ticker column lists nothing |
| Movements.IdentifiedStable | utils/performance_analysis_engine_v2.py:444 | movements with the same size of move stay in row order, as the stable `list.sort` keeps them |
| Movements.RowToMovement | utils/performance_analysis_engine_v2.py:403-437 | one row becomes the specified movement, or none |
| Movements.IdentifyMovementsFast | utils/performance_analysis_engine_v2.py:373-451 | the loop and sort produce the specified movements |
| Movements.ConfidenceTracksSize | utils/performance_analysis_engine_v2.py:624-660 | quick-insight confidence is 4/3/2 at 20/10 points and grows with the change |
| Movements.AnalyzeMovementsFast | utils/performance_analysis_engine_v2.py:577-622 | one quick insight per movement, in order |
| Movements.TriggeredContents | utils/performance_analysis_engine_v2.py:683-730 | each recommendation is present iff its ratio strictly exceeds its threshold, and there are no others |
| Movements.TriggeredBounded | utils/performance_analysis_engine_v2.py:683-730 | at most 4 recommendations are triggered |
| Movements.UrgencyIsLexicographic | utils/performance_analysis_engine_v2.py:733-734 | the sort key orders by priority rank, then by confidence descending |
| Movements.RecommendationsOrdered | utils/performance_analysis_engine_v2.py:662-736 | at most 4 recommendations, sorted by priority then descending confidence |
| Movements.RecommendationsAreTriggered | utils/performance_analysis_engine_v2.py:732-736 | sorting keeps exactly the triggered recommendations |
| Movements.GenerateRecommendationsFast | utils/performance_analysis_engine_v2.py:662-736 | the method produces the specified recommendations |
| Movements.UpDownSplit | utils/performance_analysis_engine_v2.py:748-749 | movements split into strictly-up and not-up: the counts add up to all of them and the signs are as named |
| Movements.UpDownPartition | utils/performance_analysis_engine_v2.py:748-749 | the up and down lists together are exactly the movements, as a multiset |
| Movements.TopGainers | utils/performance_analysis_engine_v2.py:748-751 | min(10, #up) gainers drawn from the rising movements, by change descending; no rising movement left out rose more than a listed one |
| Movements.TopLosers | utils/performance_analysis_engine_v2.py:749-752 | min(10, #down) losers drawn from the other movements, by change ascending; no such movement left out fell further than a listed one |
| Movements.ReportShape | utils/performance_analysis_engine_v2.py:738-782 | up + down = total = number of movements; min(10, up) gainers and min(10, down) losers, each drawn from the movements, rising and not rising respectively |
| Collections.SortDescStable | utils/performance_analysis_engine_v2.py:444 | the descending sort keeps elements with equal keys in input order, for every key, as Python's stable sort does |
| Collections.TopOfSorted | utils/performance_analysis_engine_v2.py:751-752 | the first n of a descending sort are min(n, count) elements of the input, and no element left out has a larger key than a kept one |
| Movements.SavedHistory | utils/performance_analysis_engine_v2.py:868-876 | history keeps the newest 50 reports, ending with the new one |
| Citations.NormalizeScore | agents/base_agent.py:117-122 | a normalised score lies in [0, 100] |
| Citations.NormalizeScoreShape | agents/base_agent.py:117-122 | 50 when max equals min; otherwise non-decreasing in the value, with min mapped to 0 and max to 100 |
| Citations.SplitAtFound | agents/base_agent.py:205 | the split finds the separator iff the text contains it |
| Citations.SplitAtParts | agents/base_agent.py:205 | the text is the part before, the separator and the part after |
| Citations.SplitAtFirst | agents/base_agent.py:205 | the split is at the first occurrence |
| Citations.UpTo | agents/base_agent.py:205 | the prefix up to the first slash |
| Citations.SourceIsHost | agents/base_agent.py:205 | the source of a URL is its host with every 'www.' removed |
| Citations.SourceUnknown | agents/base_agent.py:205 | a URL without '//' has source 'Unknown' |
| Citations.SourceHasNoSlash | agents/base_agent.py:205 | a source never contains '/' |
| Citations.CleanUrlEnd | agents/base_agent.py:204 | a cleaned URL does not end in '.', ',', ';' or ')' |
| Citations.PrimaryArticles | agents/base_agent.py:203-210 | one article per TITLE|URL match |
| Citations.FallbackTitle | agents/base_agent.py:213-230 | the stock title when the cleaned text before the URL has fewer than 5 characters, otherwise that text cut to 100 characters; so always 5 to 100 characters |
| Citations.FallbackArticles | agents/base_agent.py:213-233 | at most one article per line |
| Citations.FallbackArticlesShape | agents/base_agent.py:213-233 | fallback articles have clean URLs, slash-free sources and titles of 5 to 100 characters |
| Citations.CitationsShape | agents/base_agent.py:193-235 | at most max_articles; when the pattern matched, the first matches in order; otherwise fallback titles; always clean URLs and sources |
| Citations.ParseArticleCitations | agents/base_agent.py:193-235 | the loops produce the specified citations |
| Citations.FormatArticleReferences | agents/base_agent.py:237-251 | the loop produces the specified reference text |
| Citations.ReferencesLineCount | agents/base_agent.py:242-251 | n references give exactly n lines |
| Citations.LineHasOneNewline | agents/base_agent.py:247-250 | each reference line ends in its only newline |
| Display.SplitOnSeparators | app.py:555 | the pieces contain no comma or whitespace, and there is at least one |
| Display.SplitKeepsText | app.py:555 | splitting loses nothing but the separators |
| Display.ParseTickers | app.py:555-562 | the parsing loop produces the specified ticker list |
| Display.RemoveDuplicates | app.py:557-562 | the seen-set loop keeps first occurrences in order |
| Display.TickerListClean | app.py:555-556 | cleaned tokens are non-empty and have no separators and no lower-case letters |
| Display.TickersClean | app.py:555-562 | the parsed tickers are non-empty, upper-case, separator-free and distinct, and include every token of the input |
| Display.ClampScore | app.py:1716 | the clamp lands in [0, 100] and leaves in-range scores alone |
| Display.Channel | app.py:1722 | a colour channel lies in [0, 255] |
| Display.ChannelMonotone | app.py:1720-1727 | channels grow with their fraction |
| Display.GradientColor | app.py:1711-1731 | components in [0, 255] and blue 0; red 255 up to 50 and green 255 above |
| Display.GradientMonotone | app.py:1711-1731 | green grows and red falls with the score; 0, 50 and 100 map to red, yellow and green |
| Display.MarketCapCategory | app.py:1787-1796 | the category is Unknown iff the market cap is missing or zero |
| Display.MarketCapMonotone | app.py:1787-1796 | a larger non-zero market cap never gets a smaller category |
| Display.CollaborationPairs | app.py:1910-1943 | value and growth are set together iff both are present; risk and sentiment are set together iff both exceed 70 or both are under 50; macro never |
| Display.CollaborationQuotesPeer | app.py:1916-1929 | value and growth quote each other's score, and agree iff they differ by under 10 |
| Display.AgentFactorsShape | app.py:2218-2242 | at most two data factors, none for macro and sentiment |
| Display.KeyFactorsShape | app.py:2210-2252 | at most three factors, with one score factor, last, exactly when the score is outside [40, 70) |
| Display.ScoreFactorsShape | app.py:2244-2250 | at most one score-based factor |
| Display.Assessment | app.py:1342-1351 | the assessment labels use the orchestrator's 80/70/60/40 breakpoints |
| Session.SessionState.constructor | app.py:463-464 | a new session has no analysis times and no previous estimate |
| Session.SessionState.RecordAnalysisTime | app.py:764-768 | after the append the history holds at most the newest 50 durations, ending with the new one |
| ApiKeys.TierManager.constructor | utils/tier_manager.py:16-18 | creates the session key map only when there is none |
| ApiKeys.TierManager.ApiKey | utils/tier_manager.py:20-41 | a non-empty session key wins, then a secret, then the environment after a caught failure; other failures propagate; None when absent everywhere |
| ApiKeys.TierManager.Precedence | utils/tier_manager.py:30-41 | each source shadows the later ones |

## Left out

- Model replies, market data, `json.loads`, `float()` and the citation regular expressions are oracle parameters. Their behaviour belongs to libraries and services.
- The prompt texts and `_build_selection_context` are not modelled. They only build model input.
- `_gather_data` is not modelled. It is thread-pool concurrency and I/O; its result is a parameter (data, or the message it failed with).
- The synthetic price and benchmark series are not modelled. They use random numbers and float noise.
- Wall-clock readings are parameters. `time.sleep` calls are returned as requested durations.
- Logging, progress bars and Streamlit rendering are not modelled. They have no effect on results.
- Files are not modelled: the session-log files, `timing_history.json` (only its loaded content is an input), and the report and history files. The persisted lists are modelled as values.
- Floats are modelled as exact reals. NaN, infinities and rounding are not modelled.
- Text case mapping and stripping are ASCII-only. Non-ASCII whitespace, which `str.strip()` also removes, is kept.
- Python's `list(set(...))` has no specified order. In the selector it is modelled as first-occurrence de-duplication, an arbitrary choice: the selector's proved properties state members, counts and multisets, never positions. The ticker parser's order is real; it comes from its explicit `seen` loop.
- A reply that `json.loads` accepts but that is not a list of strings is modelled as a failed decode, so the fallback is taken. The source instead carries on with the value: an object or a string from the first stages fails at the list concatenation outside any `try`, and a string in a five-pick round is sliced to its first five characters.
- A dictionary entry that is present but `None` is modelled as absent.
- A movement's start date keeps the `Analysis Date` cell (or the start date given) as a cell; the source stores its `str()`. The text conversion of pandas values is not modelled.
- A data frame is a sequence of rows with their own keys, so "has a ticker column" is modelled as every row having a `Ticker` key; in pandas a column is present for all rows or for none, and the two agree on frames that come from a sheet.
- Selection.FinishShape: the rationale list holds one pair per final ticker. When a narrowing reply repeats a ticker, the source's dict comprehension at engine/ai_portfolio_selector.py:231 keeps one key for it, so there `len(ticker_rationales)` can be smaller than the number of finals; lookups by ticker agree.
- The rationale, factor, insight and recommendation texts are modelled as kinds with their numbers, not as prose.
- The executive summary, the empty and error reports, and `analyze_performance_period`'s orchestration and callbacks are not modelled. They are text assembly around the modelled steps.
- `recommend_portfolio`'s per-ticker try/continue is not modelled: analysis failures are modelled as error analyses, which the modelled code returns rather than raises.
- The Gemini client setup is a boolean, "set up successfully or not".
- Secret values and keys are plain strings.
- Timing, Eta and Selection split some loops into static helper methods (`RefineAll`, `SumLaterPhases`, `SumClosedPhases`, `RetryLoop`). The split is structural only.
