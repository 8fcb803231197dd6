/** The per-user UI session (Streamlit's `session_state`), reduced to the
    entries the modelled code reads and writes. */
module Session {
  import opened Wrappers
  import opened Collections

  /** How many past analysis durations the session keeps. */
  const HistoryCap: nat := 50

  class SessionState {
    /** `analysis_times`: durations of past analyses in seconds, oldest first. */
    var analysisTimes: seq<real>
    /** `_eta_previous`: the last smoothed remaining-time estimate, if any. */
    var etaPrevious: Option<real>
    /** `user_api_keys`: keys entered in this session; `None` until created. */
    var userApiKeys: Option<map<string, string>>

    /** A session after start-up: no history, no estimate, no key map yet. */
    constructor()
      ensures analysisTimes == [] && etaPrevious == None && userApiKeys == None
    {
      analysisTimes := [];
      etaPrevious := None;
      userApiKeys := None;
    }

    /** Appends one analysis duration, then trims to the newest 50 entries
        if the list grew past 50. */
    method RecordAnalysisTime(duration: real)
      modifies this
      ensures analysisTimes == KeepNewest(old(analysisTimes), duration, HistoryCap)
      ensures 0 < |analysisTimes| <= HistoryCap && analysisTimes[|analysisTimes| - 1] == duration
      ensures etaPrevious == old(etaPrevious) && userApiKeys == old(userApiKeys)
    {
      analysisTimes := analysisTimes + [duration];
      if |analysisTimes| > HistoryCap {
        analysisTimes := analysisTimes[|analysisTimes| - HistoryCap..];
      }
    }
  }
}
