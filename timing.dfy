/** The adaptive phase timer of the performance analysis: open/close phase
    transitions, the exponential refinement of the historical averages, and
    the remaining-time estimate over the later phases. Every clock reading is
    a `now` parameter. */
module Timing {
  import opened Wrappers
  import opened Collections
  import Text

  const IdentifyMovements: string := "identify_movements"
  const AnalyzeMovements: string := "analyze_movements"
  const AnalyzePerMovement: string := "analyze_per_movement"
  const GenerateRecommendations: string := "generate_recommendations"
  const CreateReport: string := "create_report"

  /** The four phases of an analysis run, in order. */
  const PhaseOrder: seq<string> := [IdentifyMovements, AnalyzeMovements, GenerateRecommendations, CreateReport]

  /** The built-in averages, in seconds (per movement for the analysis phase). */
  const InitialAverages: seq<(string, real)> :=
    [(IdentifyMovements, 2.0), (AnalyzePerMovement, 0.15), (GenerateRecommendations, 1.0), (CreateReport, 0.5)]

  /** The averages every lookup of the estimator relies on. */
  predicate HasDefaults(averages: seq<(string, real)>) {
    && IdentifyMovements in KeysOf(averages)
    && AnalyzePerMovement in KeysOf(averages)
    && GenerateRecommendations in KeysOf(averages)
    && CreateReport in KeysOf(averages)
  }

  /** `d.update(pairs)`: each pair written in order. */
  function Updated(averages: seq<(string, real)>, pairs: seq<(string, real)>): seq<(string, real)> {
    if pairs == [] then averages
    else Put(Updated(averages, pairs[..|pairs| - 1]), pairs[|pairs| - 1].0, pairs[|pairs| - 1].1)
  }

  /** Updating never drops a key. */
  lemma {:induction false} UpdatedKeepsKeys(averages: seq<(string, real)>, pairs: seq<(string, real)>)
    ensures forall k :: k in KeysOf(averages) ==> k in KeysOf(Updated(averages, pairs))
  {
    if pairs != [] {
      UpdatedKeepsKeys(averages, pairs[..|pairs| - 1]);
    }
  }

  /** The exponentially smoothed average: 70% old, 30% new. */
  function Smoothed(previous: real, duration: real): (r: real)
    ensures previous <= duration ==> previous <= r <= duration
    ensures duration <= previous ==> duration <= r <= previous
  {
    previous * 0.7 + duration * 0.3
  }

  /** One phase folded into the averages: a phase already averaged moves
      30% of the way to its new duration; a new phase takes its duration. */
  function RefineOne(averages: seq<(string, real)>, phase: string, duration: real): seq<(string, real)> {
    if phase in KeysOf(averages) then Put(averages, phase, Smoothed(GetOr(averages, phase, 0.0), duration))
    else Put(averages, phase, duration)
  }

  /** `_save_history`'s refinement: the run's phases folded in order. */
  function Refined(averages: seq<(string, real)>, times: seq<(string, real)>): seq<(string, real)> {
    if times == [] then averages
    else RefineOne(Refined(averages, times[..|times| - 1]), times[|times| - 1].0, times[|times| - 1].1)
  }

  lemma RefineOneValue(averages: seq<(string, real)>, phase: string, duration: real, k: string)
    ensures Find(RefineOne(averages, phase, duration), k) ==
      if k != phase then Find(averages, k)
      else if phase in KeysOf(averages) then Some(Smoothed(Find(averages, phase).value, duration))
      else Some(duration)
  {
    if phase in KeysOf(averages) {
      GetOrFind(averages, phase, 0.0);
      FindAfterPut(averages, phase, Smoothed(GetOr(averages, phase, 0.0), duration), k);
    } else {
      FindAfterPut(averages, phase, duration, k);
    }
  }

  /** Distinct keys stay distinct without the last entry, which names a key
      of its own. */
  lemma DistinctLast(al: seq<(string, real)>)
    requires al != [] && NoDup(KeysOf(al))
    ensures NoDup(KeysOf(al[..|al| - 1])) && al[|al| - 1].0 !in KeysOf(al[..|al| - 1])
  {
    var init := al[..|al| - 1];
    assert forall i :: 0 <= i < |init| ==> KeysOf(init)[i] == KeysOf(al)[i] != KeysOf(al)[|al| - 1];
  }

  /** Looking a key up in a list with distinct keys: the last entry answers
      for its own key, the rest for every other key. */
  lemma FindLast(al: seq<(string, real)>, k: string)
    requires al != [] && NoDup(KeysOf(al))
    ensures Find(al, k) == if k == al[|al| - 1].0 then Some(al[|al| - 1].1) else Find(al[..|al| - 1], k)
  {
    var init := al[..|al| - 1];
    assert forall i :: 0 <= i < |init| ==> init[i] == al[i];
    assert KeysOf(al) == KeysOf(init) + [al[|al| - 1].0];
    var r := Find(al, k);
    if r.Some? {
      var i :| 0 <= i < |al| && al[i] == (k, r.value);
      if k == al[|al| - 1].0 {
        assert KeysOf(al)[i] == KeysOf(al)[|al| - 1];
      } else {
        assert init[i] == (k, r.value);
        var q := Find(init, k);
        var j :| 0 <= j < |init| && init[j] == (k, q.value);
        assert KeysOf(al)[i] == KeysOf(al)[j];
      }
    } else {
      assert k !in KeysOf(init);
    }
  }

  /** With distinct phase names, each phase that was timed is refined once,
      and every other average is untouched. */
  lemma {:induction false} RefinedValue(averages: seq<(string, real)>, times: seq<(string, real)>, k: string)
    requires NoDup(KeysOf(times))
    ensures Find(Refined(averages, times), k) ==
      if k !in KeysOf(times) then Find(averages, k)
      else if k in KeysOf(averages) then Some(Smoothed(Find(averages, k).value, Find(times, k).value))
      else Some(Find(times, k).value)
  {
    if times != [] {
      var init := times[..|times| - 1];
      var last := times[|times| - 1];
      DistinctLast(times);
      FindLast(times, k);
      RefineOneValue(Refined(averages, init), last.0, last.1, k);
      assert KeysOf(times) == KeysOf(init) + [last.0];
      RefinedValue(averages, init, k);
    }
  }

  /** Refinement never drops an average. */
  lemma RefinedKeepsKeys(averages: seq<(string, real)>, times: seq<(string, real)>)
    requires NoDup(KeysOf(times)) && HasDefaults(averages)
    ensures HasDefaults(Refined(averages, times))
  {
    RefinedValue(averages, times, IdentifyMovements);
    RefinedValue(averages, times, AnalyzePerMovement);
    RefinedValue(averages, times, GenerateRecommendations);
    RefinedValue(averages, times, CreateReport);
  }

  /** The per-movement average is never refined by a run: the phase that is
      timed is `analyze_movements`, a different name. */
  lemma PerMovementNeverRefined(averages: seq<(string, real)>, times: seq<(string, real)>)
    requires NoDup(KeysOf(times))
    requires forall i :: 0 <= i < |times| ==> times[i].0 in PhaseOrder
    ensures Find(Refined(averages, times), AnalyzePerMovement) == Find(averages, AnalyzePerMovement)
  {
    RefinedValue(averages, times, AnalyzePerMovement);
    assert AnalyzePerMovement !in PhaseOrder;
    assert AnalyzePerMovement !in KeysOf(times);
  }

  lemma InitialHasDefaults()
    ensures HasDefaults(InitialAverages)
  {
    var ks := KeysOf(InitialAverages);
    assert ks[0] == IdentifyMovements && ks[1] == AnalyzePerMovement;
    assert ks[2] == GenerateRecommendations && ks[3] == CreateReport;
  }

  /** A time is truthy when it was set and is not zero. */
  predicate Set(t: Option<real>) {
    t.Some? && t.value != 0.0
  }

  /** `int(x)`: truncation toward zero. */
  function Trunc(x: real): int {
    if x >= 0.0 then x.Floor else -((-x).Floor)
  }

  /** The phases strictly after `current` in the fixed order; none for a
      phase outside it. */
  function LaterPhases(current: string): (r: seq<string>)
    ensures |r| <= 3
  {
    if current in PhaseOrder then PhaseOrder[IndexOf(PhaseOrder, current) + 1..] else []
  }

  lemma LaterPhasesInOrder()
    ensures LaterPhases(IdentifyMovements) == [AnalyzeMovements, GenerateRecommendations, CreateReport]
    ensures LaterPhases(AnalyzeMovements) == [GenerateRecommendations, CreateReport]
    ensures LaterPhases(GenerateRecommendations) == [CreateReport]
    ensures LaterPhases(CreateReport) == []
    ensures forall p :: p !in PhaseOrder ==> LaterPhases(p) == []
  {
    assert IndexOf(PhaseOrder, IdentifyMovements) == 0;
    assert IndexOf(PhaseOrder, AnalyzeMovements) == 1;
    assert IndexOf(PhaseOrder, GenerateRecommendations) == 2;
    assert IndexOf(PhaseOrder, CreateReport) == 3;
  }

  class DynamicTimeEstimator {
    /** `phase_times`: measured duration of each phase closed in this run. */
    var phaseTimes: seq<(string, real)>
    var currentPhase: Option<string>
    var phaseStartTime: Option<real>
    var totalStartTime: Option<real>
    /** `historical_averages`, in insertion order. */
    var historicalAverages: seq<(string, real)>

    ghost predicate Valid()
      reads this
    {
      HasDefaults(historicalAverages) && NoDup(KeysOf(phaseTimes))
    }

    /** A phase is open when it has a non-empty name and a start time. */
    predicate PhaseOpen()
      reads this
    {
      currentPhase.Some? && currentPhase.value != "" && Set(phaseStartTime)
    }

    /** A fresh estimator: the built-in averages updated with `stored`, the
        averages of the saved history (empty when there is none). */
    constructor(stored: seq<(string, real)>)
      ensures phaseTimes == [] && currentPhase == None && phaseStartTime == None && totalStartTime == None
      ensures historicalAverages == Updated(InitialAverages, stored)
      ensures Valid()
    {
      phaseTimes := [];
      currentPhase := None;
      phaseStartTime := None;
      totalStartTime := None;
      var averages := InitialAverages;
      for i := 0 to |stored|
        invariant averages == Updated(InitialAverages, stored[..i])
      {
        assert stored[..i + 1][..i] == stored[..i];
        averages := Put(averages, stored[i].0, stored[i].1);
      }
      assert stored[..|stored|] == stored;
      InitialHasDefaults();
      UpdatedKeepsKeys(InitialAverages, stored);
      historicalAverages := averages;
    }

    /** `start_total`: starts the clock and forgets the phases of any earlier run. */
    method StartTotal(now: real)
      modifies this
      requires Valid()
      ensures totalStartTime == Some(now) && phaseTimes == []
      ensures currentPhase == old(currentPhase) && phaseStartTime == old(phaseStartTime)
      ensures historicalAverages == old(historicalAverages)
      ensures Valid()
    {
      totalStartTime := Some(now);
      phaseTimes := [];
    }

    /** Records the open phase's duration, if a phase is open. */
    method CloseOpenPhase(now: real)
      modifies this
      requires Valid()
      ensures phaseTimes == if old(PhaseOpen())
        then Put(old(phaseTimes), old(currentPhase).value, now - old(phaseStartTime).value)
        else old(phaseTimes)
      ensures currentPhase == old(currentPhase) && phaseStartTime == old(phaseStartTime)
      ensures totalStartTime == old(totalStartTime) && historicalAverages == old(historicalAverages)
      ensures Valid()
    {
      var times := phaseTimes;
      if PhaseOpen() {
        PutKeepsDistinct(times, currentPhase.value, now - phaseStartTime.value);
        times := Put(times, currentPhase.value, now - phaseStartTime.value);
      }
      phaseTimes := times;
    }

    /** `start_phase`: closes the open phase, then opens `name` at `now`. */
    method StartPhase(name: string, now: real)
      modifies this
      requires Valid()
      ensures phaseTimes == if old(PhaseOpen())
        then Put(old(phaseTimes), old(currentPhase).value, now - old(phaseStartTime).value)
        else old(phaseTimes)
      ensures currentPhase == Some(name) && phaseStartTime == Some(now)
      ensures totalStartTime == old(totalStartTime) && historicalAverages == old(historicalAverages)
      ensures Valid()
    {
      CloseOpenPhase(now);
      currentPhase := Some(name);
      phaseStartTime := Some(now);
    }

    /** `end_phase`: closes the open phase; with none open it does nothing. */
    method EndPhase(now: real)
      modifies this
      requires Valid()
      ensures old(PhaseOpen()) ==>
        && phaseTimes == Put(old(phaseTimes), old(currentPhase).value, now - old(phaseStartTime).value)
        && currentPhase == None && phaseStartTime == None
      ensures !old(PhaseOpen()) ==>
        phaseTimes == old(phaseTimes) && currentPhase == old(currentPhase) && phaseStartTime == old(phaseStartTime)
      ensures totalStartTime == old(totalStartTime) && historicalAverages == old(historicalAverages)
      ensures Valid()
    {
      if PhaseOpen() {
        CloseOpenPhase(now);
        currentPhase := None;
        phaseStartTime := None;
      }
    }

    /** `_save_history`: folds this run's phase durations into the averages
        (the file write is not modelled). */
    method SaveHistory()
      modifies this
      requires Valid()
      ensures historicalAverages == Refined(old(historicalAverages), phaseTimes)
      ensures phaseTimes == old(phaseTimes) && currentPhase == old(currentPhase)
      ensures phaseStartTime == old(phaseStartTime) && totalStartTime == old(totalStartTime)
      ensures Valid()
    {
      RefinedKeepsKeys(historicalAverages, phaseTimes);
      historicalAverages := RefineAll(historicalAverages, phaseTimes);
    }

    /** The loop of `_save_history` over this run's phase durations. */
    static method RefineAll(averages: seq<(string, real)>, times: seq<(string, real)>) returns (refined: seq<(string, real)>)
      ensures refined == Refined(averages, times)
    {
      refined := averages;
      for i := 0 to |times|
        invariant refined == Refined(averages, times[..i])
      {
        assert times[..i + 1][..i] == times[..i];
        var phase := times[i].0;
        var duration := times[i].1;
        ghost var before := refined;
        if phase in KeysOf(refined) {
          var previous := GetOr(refined, phase, 0.0);
          refined := Put(refined, phase, Smoothed(previous, duration));
        } else {
          refined := Put(refined, phase, duration);
        }
        assert refined == RefineOne(before, phase, duration);
      }
      assert times[..|times|] == times;
    }

    /** `finalize`: closes the open phase, saves the averages, and reports
        the run's total time (0 when the run was never started). */
    method Finalize(now: real) returns (total: real)
      modifies this
      requires Valid()
      ensures phaseTimes == if old(PhaseOpen())
        then Put(old(phaseTimes), old(currentPhase).value, now - old(phaseStartTime).value)
        else old(phaseTimes)
      ensures historicalAverages == Refined(old(historicalAverages), phaseTimes)
      ensures total == if Set(totalStartTime) then now - totalStartTime.value else 0.0
      ensures !PhaseOpen() && totalStartTime == old(totalStartTime)
      ensures Valid()
    {
      EndPhase(now);
      SaveHistory();
      total := if Set(totalStartTime) then now - totalStartTime.value else 0.0;
    }

    // -------------------------------------------------------------------
    // Remaining-time estimate

    function Average(key: string): real
      reads this
    {
      GetOr(historicalAverages, key, 0.0)
    }

    /** The analysis phase's average, once per movement (at least once). */
    function PerMovement(count: nat): real
      reads this
    {
      Average(AnalyzePerMovement) * (if count > 1 then count else 1) as real
    }

    function ElapsedTotal(now: real): real
      reads this
    {
      if Set(totalStartTime) then now - totalStartTime.value else 0.0
    }

    /** The time left in the current phase: per movement from the measured
        rate during the analysis phase, otherwise from the phase's average
        scaled by the fraction left. */
    function CurrentPhaseRemaining(current: string, pct: real, count: nat, now: real): real
      reads this
    {
      if current == AnalyzeMovements && count > 0 then
        var processed := Trunc(count as real * pct);
        if Set(phaseStartTime) && processed > 0 then
          (count - processed) as real * ((now - phaseStartTime.value) / processed as real)
        else count as real * Average(AnalyzePerMovement)
      else if current in PhaseOrder then
        var key := if current == AnalyzeMovements then AnalyzePerMovement else current;
        var estimate := GetOr(historicalAverages, key, 1.0);
        var scaled := if key == AnalyzePerMovement then estimate * (if count > 1 then count else 1) as real else estimate;
        scaled * (1.0 - pct)
      else 1.0 * (1.0 - pct)
    }

    /** The averages of the given later phases; the analysis phase counts
        once per movement (at least once). */
    function LaterTime(phases: seq<string>, count: nat): real
      reads this
    {
      if phases == [] then 0.0
      else
        var phase := phases[|phases| - 1];
        LaterTime(phases[..|phases| - 1], count)
          + (if phase == AnalyzeMovements then PerMovement(count)
             else if phase == IdentifyMovements || phase == GenerateRecommendations || phase == CreateReport then Average(phase)
             else 0.0)
    }

    /** What the phases closed so far would have been expected to take. */
    function EstimatedSoFar(times: seq<(string, real)>, count: nat): real
      reads this
    {
      if times == [] then 0.0
      else
        var phase := times[|times| - 1].0;
        EstimatedSoFar(times[..|times| - 1], count)
          + (if phase == IdentifyMovements then Average(IdentifyMovements)
             else if Text.Contains(phase, "analyze") then PerMovement(count)
             else 0.0)
    }

    /** An estimate scaled by actual over expected time. */
    static function Rescaled(total: real, elapsed: real, soFar: real): real
      requires soFar != 0.0
    {
      total * (elapsed / soFar)
    }

    /** `estimate_remaining`: current phase plus later phases, scaled by
        actual over expected time once more than 5 s have passed, never
        below half a second. */
    function Remaining(current: string, pct: real, count: nat, now: real): (r: real)
      reads this
      ensures r >= 0.5
    {
      var total := CurrentPhaseRemaining(current, pct, count, now) + LaterTime(LaterPhases(current), count);
      var elapsed := ElapsedTotal(now);
      var soFar := EstimatedSoFar(phaseTimes, count);
      var adjusted := if elapsed > 5.0 && soFar > 0.0 then Rescaled(total, elapsed, soFar) else total;
      if adjusted > 0.5 then adjusted else 0.5
    }

    /** The estimate, computed with the source's loops. */
    method EstimateRemaining(current: string, pct: real, count: nat, now: real) returns (r: real)
      requires Valid()
      ensures r == Remaining(current, pct, count, now)
    {
      var elapsedTotal := if Set(totalStartTime) then now - totalStartTime.value else 0.0;
      var phaseRemaining := CurrentPhaseRemaining(current, pct, count, now);
      var remainingPhases := LaterPhases(current);
      var remainingPhaseTime := SumLaterPhases(remainingPhases, count);
      var totalRemaining := phaseRemaining + remainingPhaseTime;
      if elapsedTotal > 5.0 {
        var estimatedSoFar := SumClosedPhases(count);
        if estimatedSoFar > 0.0 {
          totalRemaining := Rescaled(totalRemaining, elapsedTotal, estimatedSoFar);
        }
      }
      r := if totalRemaining > 0.5 then totalRemaining else 0.5;
    }

    /** The loop over the later phases of `estimate_remaining`. */
    method SumLaterPhases(remainingPhases: seq<string>, count: nat) returns (remainingPhaseTime: real)
      ensures remainingPhaseTime == LaterTime(remainingPhases, count)
    {
      remainingPhaseTime := 0.0;
      for i := 0 to |remainingPhases|
        invariant remainingPhaseTime == LaterTime(remainingPhases[..i], count)
      {
        assert remainingPhases[..i + 1][..i] == remainingPhases[..i];
        var phase := remainingPhases[i];
        if phase == AnalyzeMovements {
          remainingPhaseTime := remainingPhaseTime + PerMovement(count);
        } else if phase == IdentifyMovements || phase == GenerateRecommendations || phase == CreateReport {
          remainingPhaseTime := remainingPhaseTime + Average(phase);
        }
      }
      assert remainingPhases[..|remainingPhases|] == remainingPhases;
    }

    /** The loop over the closed phases of `estimate_remaining`. */
    method SumClosedPhases(count: nat) returns (estimatedSoFar: real)
      ensures estimatedSoFar == EstimatedSoFar(phaseTimes, count)
    {
      estimatedSoFar := 0.0;
      for i := 0 to |phaseTimes|
        invariant estimatedSoFar == EstimatedSoFar(phaseTimes[..i], count)
      {
        assert phaseTimes[..i + 1][..i] == phaseTimes[..i];
        var phase := phaseTimes[i].0;
        if phase == IdentifyMovements {
          estimatedSoFar := estimatedSoFar + Average(IdentifyMovements);
        } else if Text.Contains(phase, "analyze") {
          estimatedSoFar := estimatedSoFar + PerMovement(count);
        }
      }
      assert phaseTimes[..|phaseTimes|] == phaseTimes;
    }

    /** Before the adjustment kicks in, the last phase adds nothing after
        itself and an unknown phase is estimated as one second scaled by the
        fraction left. */
    lemma EarlyEstimates(pct: real, count: nat, now: real, unknown: string)
      requires ElapsedTotal(now) <= 5.0 && unknown !in PhaseOrder
      ensures Remaining(CreateReport, pct, count, now) ==
        var t := GetOr(historicalAverages, CreateReport, 1.0) * (1.0 - pct); if t > 0.5 then t else 0.5
      ensures Remaining(unknown, pct, count, now) == if 1.0 - pct > 0.5 then 1.0 - pct else 0.5
    {
      LaterPhasesInOrder();
    }

    /** At the start of the recommendation phase, before adjustment, the
        estimate is that phase's average plus the report phase's average
        (never under half a second). */
    lemma RecommendationPhaseEstimate(count: nat, now: real)
      requires ElapsedTotal(now) <= 5.0
      ensures Remaining(GenerateRecommendations, 0.0, count, now) ==
        var t := GetOr(historicalAverages, GenerateRecommendations, 1.0) + Average(CreateReport);
        if t > 0.5 then t else 0.5
    {
      LaterPhasesInOrder();
      assert [CreateReport][..0] == [];
      assert LaterTime([CreateReport], count) == Average(CreateReport);
      assert CurrentPhaseRemaining(GenerateRecommendations, 0.0, count, now)
        == GetOr(historicalAverages, GenerateRecommendations, 1.0);
    }
  }
}
