/** The remaining-time estimate shown under the single-stock progress bar:
    a blend of the historical average and the current rate, smoothed against
    the previous estimate, forced down near completion and rendered in whole
    seconds. */
module Eta {
  import opened Wrappers
  import opened Text
  import Collections
  import opened Session

  function Sum(xs: seq<real>): real {
    if xs == [] then 0.0 else Sum(xs[..|xs| - 1]) + xs[|xs| - 1]
  }

  /** Average past duration scaled by the share of work left. */
  function FromHistory(hist: seq<real>, pct: real): real
    requires hist != []
  {
    Sum(hist) / (|hist| as real) * (1.0 - pct / 100.0)
  }

  /** Time per percent so far times the percent left. */
  function FromRate(elapsed: real, pct: real): real
    requires pct > 0.0
  {
    elapsed / pct * (100.0 - pct)
  }

  /** The history estimate exists once some analysis has been timed. */
  function HistoricalEstimate(hist: seq<real>, pct: real): Option<real> {
    if hist == [] then None else Some(FromHistory(hist, pct))
  }

  /** The rate estimate exists from 5% on. */
  function RateEstimate(elapsed: real, pct: real): Option<real> {
    if pct >= 5.0 then Some(FromRate(elapsed, pct)) else None
  }

  /** The weighted mean of both estimates: early on history dominates, and its
      weight falls with progress but stays at least 0.2. */
  function Mix(hist: real, rate: real, pct: real): (r: real)
    requires 0.0 <= pct
    ensures hist <= rate ==> hist <= r <= rate
    ensures rate <= hist ==> rate <= r <= hist
  {
    var w := if 0.2 >= 1.0 - pct / 100.0 then 0.2 else 1.0 - pct / 100.0;
    BetweenWeighted(hist, rate, w);
    hist * w + rate * (1.0 - w)
  }

  lemma BetweenWeighted(a: real, b: real, w: real)
    requires 0.0 <= w <= 1.0
    ensures a <= b ==> a <= a * w + b * (1.0 - w) <= b
    ensures b <= a ==> b <= a * w + b * (1.0 - w) <= a
  {
    assert a * w + b * (1.0 - w) - a == (b - a) * (1.0 - w);
    assert a * w + b * (1.0 - w) - b == (a - b) * w;
  }

  function Blend(hist: Option<real>, rate: Option<real>, pct: real): Option<real>
    requires 0.0 <= pct
  {
    if hist.Some? && rate.Some? then Some(Mix(hist.value, rate.value, pct))
    else if hist.Some? then hist
    else rate
  }

  /** Exponential smoothing against a positive previous estimate, after
      capping the new estimate at 1.2 times the previous one. */
  function Smooth(est: real, prev: Option<real>): (r: real)
    ensures prev.Some? && prev.value > 0.0 ==> r <= 1.06 * prev.value
    ensures prev.Some? && prev.value > 0.0 && est >= 0.0 ==> r >= 0.7 * prev.value
    ensures !(prev.Some? && prev.value > 0.0) ==> r == est
  {
    if prev.Some? && prev.value > 0.0 then
      var capped := if est > prev.value * 1.2 then prev.value * 1.2 else est;
      0.3 * capped + 0.7 * prev.value
    else est
  }

  /** From 85% on, the estimate is scaled by the share of the last 15% left. */
  function Decay(est: real, pct: real): (r: real)
    ensures pct >= 100.0 ==> r == 0.0
    ensures pct < 85.0 ==> r == est
    ensures est >= 0.0 ==> 0.0 <= r <= est
  {
    if pct >= 85.0 then
      var factor := if 0.0 >= (100.0 - pct) / 15.0 then 0.0 else (100.0 - pct) / 15.0;
      est * factor
    else est
  }

  /** " ~Ns" under a minute, " ~Mm Ss" from a minute on. */
  function FormatSeconds(n: nat): string {
    " ~" + (if n < 60 then NatToString(n) else NatToString(n / 60) + "m " + NatToString(n % 60)) + "s"
  }

  /** The displayed text for a final estimate: empty unless positive, else
      whole seconds truncated toward zero and at least one. */
  function Render(est: real): string {
    if est <= 0.0 then ""
    else FormatSeconds(if est.Floor >= 1 then est.Floor else 1)
  }

  /** What one call displays, and what it stores as `_eta_previous` (`None`
      when it stores nothing). */
  datatype EtaStep = EtaStep(text: string, stored: Option<real>)

  /** `_estimate_time_remaining`; `session` is the history and previous
      estimate of the session, or `None` when no session is passed. */
  function EtaSpec(elapsed: real, pct: real, session: Option<(seq<real>, Option<real>)>): EtaStep {
    if pct < 3.0 || elapsed < 1.0 then EtaStep("", None)
    else
      var hist := if session.Some? then HistoricalEstimate(session.value.0, pct) else None;
      var blended := Blend(hist, RateEstimate(elapsed, pct), pct);
      if blended.None? then EtaStep("", None)
      else if session.None? then EtaStep(Render(Decay(blended.value, pct)), None)
      else
        var smoothed := Smooth(blended.value, session.value.1);
        EtaStep(Render(Decay(smoothed, pct)), Some(smoothed))
  }

  /** The estimator as the source runs it, step by step on the session. */
  method EstimateTimeRemaining(elapsed: real, pct: real, session: SessionState?) returns (text: string)
    modifies session
    ensures session == null ==> text == EtaSpec(elapsed, pct, None).text
    ensures session != null ==>
      var step := EtaSpec(elapsed, pct, Some((old(session.analysisTimes), old(session.etaPrevious))));
      text == step.text
      && session.etaPrevious == (if step.stored.Some? then step.stored else old(session.etaPrevious))
      && session.analysisTimes == old(session.analysisTimes)
      && session.userApiKeys == old(session.userApiKeys)
  {
    if pct < 3.0 || elapsed < 1.0 {
      return "";
    }
    var historical: Option<real> := None;
    var rate: Option<real> := None;
    if session != null && session.analysisTimes != [] {
      historical := Some(FromHistory(session.analysisTimes, pct));
    }
    if pct >= 5.0 {
      rate := Some(FromRate(elapsed, pct));
    }
    ghost var sessionView := if session == null then None else Some((session.analysisTimes, session.etaPrevious));
    assert historical == (if sessionView.Some? then HistoricalEstimate(sessionView.value.0, pct) else None);
    assert rate == RateEstimate(elapsed, pct);
    ghost var blended := Blend(historical, rate, pct);
    var estimate: real;
    if historical.Some? && rate.Some? {
      estimate := Mix(historical.value, rate.value, pct);
    } else if historical.Some? {
      estimate := historical.value;
    } else if rate.Some? {
      estimate := rate.value;
    } else {
      return "";
    }
    assert blended == Some(estimate);
    if session != null {
      var prev := session.etaPrevious;
      if prev.Some? && prev.value > 0.0 {
        if estimate > prev.value * 1.2 {
          estimate := prev.value * 1.2;
        }
        estimate := 0.3 * estimate + 0.7 * prev.value;
      }
      session.etaPrevious := Some(estimate);
      assert estimate == Smooth(blended.value, sessionView.value.1);
    }
    ghost var beforeDecay := estimate;
    estimate := Decay(estimate, pct);
    assert estimate == Decay(beforeDecay, pct);
    if estimate <= 0.0 {
      return "";
    }
    var remaining := if estimate.Floor >= 1 then estimate.Floor else 1;
    text := FormatSeconds(remaining);
  }

  // ---------------------------------------------------------------------
  // Properties

  /** The estimate stored in the session never exceeds 1.06 times a positive
      previous estimate, so a displayed countdown cannot jump up sharply. */
  lemma StoredEstimateBounded(elapsed: real, pct: real, hist: seq<real>, prev: real)
    requires prev > 0.0
    ensures EtaSpec(elapsed, pct, Some((hist, Some(prev)))).stored.Some? ==>
            EtaSpec(elapsed, pct, Some((hist, Some(prev)))).stored.value <= 1.06 * prev
  {
  }

  /** At or past 100% nothing is displayed. */
  lemma SilentAtCompletion(elapsed: real, pct: real, session: Option<(seq<real>, Option<real>)>)
    requires pct >= 100.0
    ensures EtaSpec(elapsed, pct, session).text == ""
  {
  }

  /** Reads a displayed estimate back into seconds: " ~Ns" or " ~Mm Ss". */
  function ParseEta(s: string): Option<int> {
    if |s| < 4 || s[..2] != " ~" || s[|s| - 1] != 's' then None
    else ParseBody(s[2..|s| - 1])
  }

  /** The two shapes a displayed estimate can take, as digit strings. */
  datatype EtaParts = Seconds(digits: string) | MinutesSeconds(minutes: string, seconds: string)

  function PartsValue(p: EtaParts): int {
    match p
    case Seconds(d) => DigitsValue(d)
    case MinutesSeconds(m, d) => DigitsValue(m) * 60 + DigitsValue(d)
  }

  /** The part between " ~" and the final "s". */
  function ParseBody(body: string): Option<int> {
    match SplitBody(body)
    case None => None
    case Some(p) => Some(PartsValue(p))
  }

  function SplitBody(body: string): Option<EtaParts> {
    if 'm' in body then
      var i := Collections.IndexOf(body, 'm');
      var rest := body[i + 1..];
      if rest == [] || rest[0] != ' ' || !AllDigits(body[..i]) || !AllDigits(rest[1..]) then None
      else Some(MinutesSeconds(body[..i], rest[1..]))
    else if AllDigits(body) then Some(Seconds(body))
    else None
  }

  predicate AllDigits(s: string) {
    s != [] && forall i :: 0 <= i < |s| ==> IsDigit(s[i])
  }

  lemma ParseFrame(body: string)
    requires body != []
    ensures ParseEta(" ~" + body + "s") == ParseBody(body)
  {
    var s := " ~" + body + "s";
    assert s[..2] == " ~";
    assert s[2..|s| - 1] == body;
  }

  /** The first `c` in `a + [c] + rest` is right after `a` when `a` has none. */
  lemma {:induction false} IndexAfterPrefix(a: string, c: char, rest: string)
    requires c !in a
    ensures Collections.IndexOf(a + [c] + rest, c) == |a|
    decreases |a|
  {
    if a != [] {
      assert (a + [c] + rest)[1..] == a[1..] + [c] + rest;
      IndexAfterPrefix(a[1..], c, rest);
    }
  }

  lemma DigitsLackM(a: string)
    requires AllDigits(a)
    ensures 'm' !in a
  {
  }

  lemma SplitBodyMinutes(a: string, b: string)
    requires AllDigits(a) && AllDigits(b)
    ensures SplitBody(a + "m " + b) == Some(MinutesSeconds(a, b))
  {
    var body := a + "m " + b;
    var rest := " " + b;
    assert body == a + ['m'] + rest && 'm' in body && rest[1..] == b;
    assert Collections.IndexOf(body, 'm') == |a| by {
      DigitsLackM(a);
      IndexAfterPrefix(a, 'm', rest);
    }
    assert body[..|a|] == a && body[|a| + 1..] == rest;
  }

  /** Every positive number of seconds is displayed in a form `ParseEta`
      reads back exactly; minutes and seconds are split at 60. */
  lemma FormatSecondsReadsBack(n: nat)
    requires n >= 1
    ensures ParseEta(FormatSeconds(n)) == Some(n)
  {
    if n < 60 {
      NatToStringRoundTrip(n);
      DigitsLackM(NatToString(n));
      ParseFrame(NatToString(n));
    } else {
      NatToStringRoundTrip(n / 60);
      NatToStringRoundTrip(n % 60);
      SplitBodyMinutes(NatToString(n / 60), NatToString(n % 60));
      ParseFrame(NatToString(n / 60) + "m " + NatToString(n % 60));
    }
  }

  /** Whatever the estimator displays is either nothing or a readable number
      of seconds no smaller than one. */
  lemma DisplayReadsBack(elapsed: real, pct: real, session: Option<(seq<real>, Option<real>)>)
    ensures var t := EtaSpec(elapsed, pct, session).text;
            t == "" || (ParseEta(t).Some? && ParseEta(t).value >= 1)
  {
    var t := EtaSpec(elapsed, pct, session).text;
    if t != "" {
      var step := EtaSpec(elapsed, pct, session);
      var hist := if session.Some? then HistoricalEstimate(session.value.0, pct) else None;
      var blended := Blend(hist, RateEstimate(elapsed, pct), pct);
      var est := if session.None? then Decay(blended.value, pct)
                 else Decay(Smooth(blended.value, session.value.1), pct);
      assert t == Render(est);
      var n := if est.Floor >= 1 then est.Floor else 1;
      FormatSecondsReadsBack(n);
    }
  }
}
