/** The two-model ticker selection pipeline: two language models each propose
    tickers, the proposals are pooled, every candidate gets a rationale, three
    rounds pick five each, and the finalists are narrowed to five when more
    than five distinct tickers were picked. Model replies, the JSON decoder
    and the wall clock are parameters. */
module Selection {
  import opened Wrappers
  import opened Text
  import opened Collections

  /** Minimum spacing between two throttled calls, in seconds. */
  const MinDelay: real := 0.5
  /** Attempts a throttled call makes before giving up on a rate limit. */
  const MaxAttempts: nat := 3

  /** One attempt at a chat completion: the reply text and the clock reading
      when it returned, or the message of the exception it raised. */
  datatype Attempt = Succeeded(content: string, finishedAt: real) | Threw(message: string)

  /** What the outside world does for one throttled call: the clock reading
      when the call starts and the outcome of each attempt. */
  datatype CallScript = CallScript(startedAt: real, attempts: nat -> Attempt)

  /** The retry loop on its own: the result, the back-off sleeps, the number
      of attempts made and, on success, the clock reading after it. */
  datatype Retried = Retried(result: Result<string>, backoffs: seq<real>, attempts: nat, finishedAt: Option<real>)

  /** A throttled call as seen from outside: result and every sleep in order. */
  datatype CallOutcome = CallOutcome(result: Result<string>, sleeps: seq<real>, attempts: nat)

  /** An error counts as a rate limit when its text holds "429" verbatim or
      "rate_limit" in any letter case. */
  predicate IsRateLimit(message: string) {
    Contains(message, "429") || Contains(Lower(message), "rate_limit")
  }

  /** The retry loop from attempt `i` on: success returns, a rate limit before
      the last attempt waits 10 s times the attempt number and tries again,
      anything else is raised. */
  function RetryFrom(attempts: nat -> Attempt, i: nat): (r: Retried)
    requires i < MaxAttempts
    ensures i < r.attempts <= MaxAttempts
    ensures r.result.Ok? <==> r.finishedAt.Some?
    ensures r.result.Ok? ==> attempts(r.attempts - 1) == Succeeded(r.result.value, r.finishedAt.value)
    ensures r.result.Err? ==> attempts(r.attempts - 1) == Threw(r.result.error)
    decreases MaxAttempts - i
  {
    match attempts(i)
    case Succeeded(content, t) => Retried(Ok(content), [], i + 1, Some(t))
    case Threw(m) =>
      if IsRateLimit(m) && i < MaxAttempts - 1 then
        var rest := RetryFrom(attempts, i + 1);
        Retried(rest.result, [10.0 * (i + 1) as real] + rest.backoffs, rest.attempts, rest.finishedAt)
      else
        Retried(Err(m), [], i + 1, None)
  }

  /** One back-off sleep before each retry, 10 s times the number of the
      attempt that hit the rate limit. */
  lemma {:induction false} RetryBackoffs(attempts: nat -> Attempt, i: nat)
    requires i < MaxAttempts
    ensures var r := RetryFrom(attempts, i);
      && |r.backoffs| == r.attempts - 1 - i
      && forall k :: 0 <= k < |r.backoffs| ==> r.backoffs[k] == 10.0 * (i + k + 1) as real
    decreases MaxAttempts - i
  {
    match attempts(i)
    case Succeeded(_, _) =>
    case Threw(m) =>
      if IsRateLimit(m) && i < MaxAttempts - 1 {
        RetryBackoffs(attempts, i + 1);
        var rest := RetryFrom(attempts, i + 1);
        var r := RetryFrom(attempts, i);
        assert r.backoffs == [10.0 * (i + 1) as real] + rest.backoffs;
        forall k | 0 <= k < |r.backoffs| ensures r.backoffs[k] == 10.0 * (i + k + 1) as real {
          if k > 0 {
            assert r.backoffs[k] == rest.backoffs[k - 1];
          }
        }
      }
  }

  /** A rate limit before the last attempt backs off and tries again. */
  lemma RetryAgain(attempts: nat -> Attempt, i: nat, m: string)
    requires i < MaxAttempts - 1 && attempts(i) == Threw(m) && IsRateLimit(m)
    ensures RetryFrom(attempts, i) == AfterBackoffs([10.0 * (i + 1) as real], RetryFrom(attempts, i + 1))
  {
  }

  /** The same outcome with earlier back-off sleeps in front. */
  function AfterBackoffs(earlier: seq<real>, r: Retried): Retried {
    r.(backoffs := earlier + r.backoffs)
  }

  /** Prefixing twice is prefixing once with both. */
  lemma AfterBackoffsTwice(a: seq<real>, b: seq<real>, r: Retried)
    ensures AfterBackoffs(a, AfterBackoffs(b, r)) == AfterBackoffs(a + b, r)
  {
    assert a + (b + r.backoffs) == (a + b) + r.backoffs;
  }

  /** A success, another error, or a rate limit on the last attempt ends
      the call. */
  lemma RetryEnds(attempts: nat -> Attempt, i: nat)
    requires i < MaxAttempts
    requires attempts(i).Threw? ==> !IsRateLimit(attempts(i).message) || i == MaxAttempts - 1
    ensures RetryFrom(attempts, i) == match attempts(i)
      case Succeeded(content, t) => Retried(Ok(content), [], i + 1, Some(t))
      case Threw(m) => Retried(Err(m), [], i + 1, None)
  {
  }

  /** The sleep before the first attempt: whatever is missing to half a second
      since the last successful call. */
  function InitialWait(last: real, now: real): (w: seq<real>)
    ensures now - last < MinDelay <==> w == [MinDelay - (now - last)]
    ensures now - last >= MinDelay <==> w == []
  {
    if now - last < MinDelay then [MinDelay - (now - last)] else []
  }

  function ThrottledCall(last: real, script: CallScript): CallOutcome {
    var r := RetryFrom(script.attempts, 0);
    CallOutcome(r.result, InitialWait(last, script.startedAt) + r.backoffs, r.attempts)
  }

  /** What a throttled call returns or raises. */
  function Reply(script: CallScript): Result<string> {
    RetryFrom(script.attempts, 0).result
  }

  /** The time of the last successful call after this one. */
  function LastCallAfter(last: real, script: CallScript): real {
    RetryFrom(script.attempts, 0).finishedAt.GetOr(last)
  }

  /** The clock after one throttled call for each of `qs`, in order. */
  function ClockAfter(last: real, calls: Query -> CallScript, qs: seq<Query>): real
    decreases |qs|
  {
    if qs == [] then last else LastCallAfter(ClockAfter(last, calls, qs[..|qs| - 1]), calls(qs[|qs| - 1]))
  }

  /** When none of the calls succeeds the clock does not move. */
  lemma {:induction false} ClockStill(last: real, calls: Query -> CallScript, qs: seq<Query>)
    requires forall i :: 0 <= i < |qs| ==> Reply(calls(qs[i])).Err?
    ensures ClockAfter(last, calls, qs) == last
    decreases |qs|
  {
    if qs != [] {
      var p := qs[..|qs| - 1];
      assert forall i :: 0 <= i < |p| ==> p[i] == qs[i];
      ClockStill(last, calls, p);
    }
  }

  /** Otherwise the clock reads the finishing time of the last call that
      succeeded. */
  lemma {:induction false} ClockAtLastSuccess(last: real, calls: Query -> CallScript, qs: seq<Query>, i: nat)
    requires i < |qs| && Reply(calls(qs[i])).Ok?
    requires forall j :: i < j < |qs| ==> Reply(calls(qs[j])).Err?
    ensures RetryFrom(calls(qs[i]).attempts, 0).finishedAt == Some(ClockAfter(last, calls, qs))
    decreases |qs|
  {
    var p := qs[..|qs| - 1];
    if i < |p| {
      assert forall j :: 0 <= j < |p| ==> p[j] == qs[j];
      ClockAtLastSuccess(last, calls, p, i);
    }
  }

  /** One more call moves the clock as that call alone does. */
  lemma ClockAfterSnoc(last: real, calls: Query -> CallScript, qs: seq<Query>, q: Query)
    ensures ClockAfter(last, calls, qs + [q]) == LastCallAfter(ClockAfter(last, calls, qs), calls(q))
  {
    assert (qs + [q])[..|qs|] == qs;
  }

  /** Two runs of calls leave the clock where their concatenation does. */
  lemma {:induction false} ClockAfterConcat(last: real, calls: Query -> CallScript, a: seq<Query>, b: seq<Query>)
    ensures ClockAfter(last, calls, a + b) == ClockAfter(ClockAfter(last, calls, a), calls, b)
    decreases |b|
  {
    if b == [] {
      assert a + b == a;
    } else {
      var c := b[..|b| - 1];
      ClockAfterConcat(last, calls, a, c);
      assert (a + b)[..|a + b| - 1] == a + c;
    }
  }

  /** The clock after a whole selection, call by call: the initial request,
      one per candidate, three rounds, and the narrowing request when it is
      made. */
  lemma PlanClock(last: real, openai: Query -> CallScript, candidates: seq<string>,
                  finalists: seq<string>, rationales: seq<(string, string)>)
    ensures var afterRounds := ClockAfter(ClockAfter(LastCallAfter(last, openai(InitialSelection)), openai, RationaleQueries(candidates)), openai, RoundQueries(3));
      ClockAfter(last, openai, [InitialSelection] + RationaleQueries(candidates) + RoundQueries(3) + NarrowingQueries(finalists, rationales))
        == if |finalists| > 5 && FirstUnexplained(finalists, rationales).None?
           then LastCallAfter(afterRounds, openai(Narrowing)) else afterRounds
  {
    assert [InitialSelection][..0] == [];
    assert [Narrowing][..0] == [];
    ClockAfterConcat(last, openai, [InitialSelection], RationaleQueries(candidates));
    ClockAfterConcat(last, openai, [InitialSelection] + RationaleQueries(candidates), RoundQueries(3));
    ClockAfterConcat(last, openai, [InitialSelection] + RationaleQueries(candidates) + RoundQueries(3), NarrowingQueries(finalists, rationales));
  }

  /** An error that is not a rate limit ends the call after one attempt. */
  lemma OtherErrorsNotRetried(script: CallScript, m: string)
    requires script.attempts(0) == Threw(m) && !IsRateLimit(m)
    ensures RetryFrom(script.attempts, 0) == Retried(Err(m), [], 1, None)
  {
  }

  /** Three rate limits in a row: waits of 10 s and 20 s, then the third
      error is raised. */
  lemma {:induction false} RateLimitedThrice(script: CallScript, m0: string, m1: string, m2: string)
    requires script.attempts(0) == Threw(m0) && script.attempts(1) == Threw(m1) && script.attempts(2) == Threw(m2)
    requires IsRateLimit(m0) && IsRateLimit(m1) && IsRateLimit(m2)
    ensures RetryFrom(script.attempts, 0) == Retried(Err(m2), [10.0, 20.0], 3, None)
  {
    assert RetryFrom(script.attempts, 2) == Retried(Err(m2), [], 3, None);
    assert RetryFrom(script.attempts, 1) == Retried(Err(m2), [20.0], 3, None);
  }

  /** The last-call time moves only when a call succeeds, to the moment that
      attempt returned. */
  lemma LastCallMovesOnSuccess(last: real, script: CallScript)
    ensures ThrottledCall(last, script).result.Err? ==> LastCallAfter(last, script) == last
    ensures ThrottledCall(last, script).result.Ok? ==>
      exists k :: 0 <= k < MaxAttempts && script.attempts(k) == Succeeded(ThrottledCall(last, script).result.value, LastCallAfter(last, script))
  {
    var r := RetryFrom(script.attempts, 0);
    if r.result.Ok? {
      assert script.attempts(r.attempts - 1) == Succeeded(r.result.value, r.finishedAt.value);
    }
  }

  /** `response.choices[0].message.content.strip()` followed by removal of a
      ```json fence: when the stripped text starts with "```json", every
      "```json" and then every "```" is deleted and the rest stripped. */
  function CleanReply(content: string): string {
    var c := Strip(content);
    if StartsWith(c, "```json") then Strip(RemoveAll(RemoveAll(c, "```json"), "```")) else c
  }

  /** The Gemini variant also removes a bare ``` fence. */
  function CleanGeminiReply(content: string): string {
    var c := CleanReply(content);
    if StartsWith(c, "```") then Strip(RemoveAll(c, "```")) else c
  }

  /** A JSON body wrapped in a ```json fence comes out unwrapped, by either
      cleaner. */
  lemma FencedReplyUnwrapped(body: string)
    requires '`' !in body
    ensures CleanReply("```json" + body + "```") == Strip(body)
    ensures CleanGeminiReply("```json" + body + "```") == Strip(body)
  {
    var fence := "```";
    var open := "```json";
    var s := open + body + fence;
    assert s[0] == '`' && s[|s| - 1] == '`';
    StripKeeps(s);
    assert s[..|open|] == open;
    assert s == open + (body + fence);
    RemoveLeading(open, body + fence);
    RemoveSkipsPrefix(body, fence, open);
    assert RemoveAll(fence, open) == fence;
    RemoveSkipsPrefix(body, fence, fence);
    RemoveLeading(fence, []);
    assert fence + [] == fence;
    assert RemoveAll([], fence) == [];
    assert body + [] == body;
    StripWithin(body, '`');
    var b := Strip(body);
    if |b| > 0 {
      assert b[0] in b;
    }
  }

  /** The twenty tickers the OpenAI stage falls back to. */
  const OpenAIFallback: seq<string> := ["AAPL", "MSFT", "GOOGL", "AMZN", "NVDA", "META", "TSLA", "BRK.B",
    "JPM", "V", "JNJ", "WMT", "PG", "MA", "HD", "DIS", "BAC", "CSCO", "ADBE", "CRM"]

  /** The twenty tickers the Gemini stage falls back to. */
  const GeminiFallback: seq<string> := ["COST", "NFLX", "AMD", "ORCL", "INTC", "QCOM", "AMAT", "TXN",
    "HON", "UNP", "UPS", "RTX", "LMT", "CAT", "DE", "MMM", "GE", "BA", "DHR", "ABT"]

  /** Tickers requested from each model in the first stage. */
  const InitialCount: nat := 20

  /** What the fallback rationale says after the ticker. */
  const TemplateTail: string := " is a well-established company with strong market position. It aligns with the investment objectives and risk profile. The stock offers growth potential while maintaining reasonable valuation metrics. Adding this position contributes to portfolio diversification and strategic objectives."

  /** The rationale written when the model call fails. */
  function TemplateRationale(ticker: string): string {
    ticker + TemplateTail
  }

  /** The model requests the pipeline makes, one script per request. */
  datatype Query = InitialSelection | TickerRationale(ticker: string) | TopFive(round: nat) | Narrowing

  /** A decoder stands in for `json.loads`: `None` when the text is not a
      JSON array of strings. */
  type Decoder = string -> Option<seq<string>>

  /** A proposal stage: the decoded reply, or the first `n` fallback tickers
      when the call or the decoding failed. */
  function Proposal(reply: Result<string>, clean: string -> string, decode: Decoder, fallback: seq<string>, n: nat): (r: seq<string>)
    ensures reply.Ok? && decode(clean(reply.value)).Some? ==> r == decode(clean(reply.value)).value
    ensures reply.Err? || decode(clean(reply.value)).None? ==> r == Take(fallback, n)
  {
    if reply.Ok? && decode(clean(reply.value)).Some? then decode(clean(reply.value)).value else Take(fallback, n)
  }

  /** A rationale: the stripped reply, or the template when the call failed. */
  function Rationale(ticker: string, reply: Result<string>): string {
    match reply
    case Ok(content) => Strip(content)
    case Err(_) => TemplateRationale(ticker)
  }

  /** A five-pick: the first five decoded tickers, or the first five of the
      pool when the call or the decoding failed. */
  function PickFive(reply: Result<string>, decode: Decoder, pool: seq<string>): (r: seq<string>)
    ensures |r| <= 5
    ensures (reply.Err? || decode(CleanReply(reply.value)).None?) ==> r == Take(pool, 5)
  {
    if reply.Ok? && decode(CleanReply(reply.value)).Some? then Take(decode(CleanReply(reply.value)).value, 5) else Take(pool, 5)
  }

  /** Rationales for the candidates, in candidate order. */
  function Rationales(candidates: seq<string>, openai: Query -> CallScript): (r: seq<(string, string)>)
    ensures |r| == |candidates|
    ensures forall i :: 0 <= i < |r| ==> r[i].0 == candidates[i]
  {
    seq(|candidates|, i requires 0 <= i < |candidates| =>
      (candidates[i], Rationale(candidates[i], Reply(openai(TickerRationale(candidates[i]))))))
  }

  /** The entries of the session log, in the order they are appended. */
  datatype Stage =
    | OpenAIInitialSelection(tickers: seq<string>)
    | GeminiInitialSelection(tickers: seq<string>)
    | Aggregation(uniqueTickers: seq<string>, count: nat)
    | RationaleGeneration(tickerRationales: seq<(string, string)>)
    | FinalSelectionRounds(round1: seq<string>, round2: seq<string>, round3: seq<string>)
    | FinalConsolidation(uniqueFinalists: seq<string>, final5: seq<string>)
  {
    function Name(): string {
      match this
      case OpenAIInitialSelection(_) => "openai_initial_selection"
      case GeminiInitialSelection(_) => "gemini_initial_selection"
      case Aggregation(_, _) => "aggregation"
      case RationaleGeneration(_) => "rationale_generation"
      case FinalSelectionRounds(_, _, _) => "final_selection_rounds"
      case FinalConsolidation(_, _) => "final_consolidation"
    }
  }

  /** What a completed selection hands back. */
  datatype Selected = Selected(
    finalTickers: seq<string>,
    tickerRationales: seq<(string, string)>,
    allCandidates: seq<string>,
    allRationales: seq<(string, string)>,
    rounds: seq<seq<string>>,
    stages: seq<Stage>)

  /** The error raised when a ticker has no rationale (a `KeyError`). */
  function MissingRationale(ticker: string): string {
    "KeyError: " + ticker
  }

  /** The first ticker of `ts` without a rationale, if any. */
  function FirstUnexplained(ts: seq<string>, rationales: seq<(string, string)>): (r: Option<string>)
    ensures r.None? <==> forall i :: 0 <= i < |ts| ==> ts[i] in KeysOf(rationales)
    ensures r.Some? ==> r.value in ts && r.value !in KeysOf(rationales)
  {
    if ts == [] then None
    else if ts[0] !in KeysOf(rationales) then Some(ts[0])
    else
      var rest := FirstUnexplained(ts[1..], rationales);
      assert forall i :: 1 <= i < |ts| ==> ts[i] == ts[1..][i - 1];
      rest
  }

  /** The rationales of the final tickers, looked up one by one. */
  function Explain(ts: seq<string>, rationales: seq<(string, string)>): (r: seq<(string, string)>)
    requires forall i :: 0 <= i < |ts| ==> ts[i] in KeysOf(rationales)
    ensures |r| == |ts|
    ensures forall i :: 0 <= i < |ts| ==> r[i].0 == ts[i] && Find(rationales, ts[i]) == Some(r[i].1)
  {
    seq(|ts|, i requires 0 <= i < |ts| => (ts[i], Find(rationales, ts[i]).value))
  }

  /** The narrowing reply, which is asked for only when more than five
      distinct tickers were picked and each of them has a rationale. */
  function NarrowingReply(finalists: seq<string>, rationales: seq<(string, string)>, script: CallScript): Result<string> {
    if |finalists| > 5 && FirstUnexplained(finalists, rationales).None? then Reply(script) else Err("not asked")
  }

  /** The consolidation stage: more than five finalists are narrowed by the
      model, five or fewer are kept as they are; a finalist (when narrowing)
      or a final ticker without a rationale raises a `KeyError`. */
  function Consolidate(finalists: seq<string>, narrowing: Result<string>, decode: Decoder, rationales: seq<(string, string)>): (r: Result<seq<string>>)
    ensures r.Ok? ==> |r.value| <= 5
    ensures r.Ok? ==> forall i :: 0 <= i < |r.value| ==> r.value[i] in KeysOf(rationales)
    ensures r.Ok? && |finalists| <= 5 ==> r.value == finalists
    ensures r.Ok? && |finalists| > 5 ==> r.value == PickFive(narrowing, decode, finalists)
    ensures r.Err? ==> exists t :: t !in KeysOf(rationales) && r.error == MissingRationale(t)
  {
    var missing := if |finalists| > 5 then FirstUnexplained(finalists, rationales) else None;
    if missing.Some? then Err(MissingRationale(missing.value))
    else
      var final := if |finalists| > 5 then PickFive(narrowing, decode, finalists) else finalists;
      var unexplained := FirstUnexplained(final, rationales);
      if unexplained.Some? then Err(MissingRationale(unexplained.value)) else Ok(final)
  }

  /** The OpenAI proposal of the first stage. */
  function OpenAIProposal(openai: Query -> CallScript, decode: Decoder): seq<string> {
    Proposal(Reply(openai(InitialSelection)), CleanReply, decode, OpenAIFallback, InitialCount)
  }

  /** The Gemini proposal of the second stage. */
  function GeminiProposal(geminiReady: bool, gemini: Result<string>, decode: Decoder): seq<string> {
    Proposal(if geminiReady then gemini else Err(GeminiMissing), CleanGeminiReply, decode, GeminiFallback, InitialCount)
  }

  /** Round `k` of the five-pick stage. */
  function Round(openai: Query -> CallScript, decode: Decoder, candidates: seq<string>, k: nat): seq<string> {
    PickFive(Reply(openai(TopFive(k))), decode, candidates)
  }

  /** The consolidation stage and the hand-back, given what came before and
      the log written so far. */
  function Finish(openai: Query -> CallScript, decode: Decoder, candidates: seq<string>,
                  rationales: seq<(string, string)>, rounds: seq<seq<string>>, log: seq<Stage>): Result<Selected>
    requires |rounds| == 3
  {
    var finalists := Dedup(rounds[0] + rounds[1] + rounds[2]);
    var chosen := Consolidate(finalists, NarrowingReply(finalists, rationales, openai(Narrowing)), decode, rationales);
    match chosen
    case Err(e) => Err(e)
    case Ok(final) =>
      Ok(Selected(final, Explain(final, rationales), candidates, rationales, rounds, log + [FinalConsolidation(finalists, final)]))
  }

  /** The whole selection, as a function of the model replies and the
      decoder. `geminiReady` says whether a Gemini model was set up. */
  function Plan(openai: Query -> CallScript, geminiReady: bool, gemini: Result<string>, decode: Decoder): Result<Selected> {
    var o := OpenAIProposal(openai, decode);
    var g := GeminiProposal(geminiReady, gemini, decode);
    var candidates := Dedup(o + g);
    var rationales := Rationales(candidates, openai);
    var rounds := [Round(openai, decode, candidates, 1), Round(openai, decode, candidates, 2), Round(openai, decode, candidates, 3)];
    Finish(openai, decode, candidates, rationales, rounds,
      [OpenAIInitialSelection(o), GeminiInitialSelection(g), Aggregation(candidates, |candidates|),
       RationaleGeneration(rationales), FinalSelectionRounds(rounds[0], rounds[1], rounds[2])])
  }

  /** The rationale requests, one per candidate in order. */
  function RationaleQueries(candidates: seq<string>): seq<Query> {
    seq(|candidates|, i requires 0 <= i < |candidates| => TickerRationale(candidates[i]))
  }

  lemma RationaleQueriesSnoc(candidates: seq<string>, t: string)
    ensures RationaleQueries(candidates + [t]) == RationaleQueries(candidates) + [TickerRationale(t)]
  {
  }

  /** The first `n` five-pick requests. */
  function RoundQueries(n: nat): seq<Query> {
    seq(n, k requires 0 <= k < n => TopFive(k + 1))
  }

  lemma RoundQueriesSnoc(n: nat)
    ensures RoundQueries(n + 1) == RoundQueries(n) + [TopFive(n + 1)]
  {
  }

  /** The narrowing request, made only when more than five distinct tickers
      were picked and each of them has a rationale. */
  function NarrowingQueries(finalists: seq<string>, rationales: seq<(string, string)>): seq<Query> {
    if |finalists| > 5 && FirstUnexplained(finalists, rationales).None? then [Narrowing] else []
  }

  /** The throttled OpenAI requests of a whole selection, in the order they
      are made; the Gemini request is not throttled. */
  function PlanQueries(openai: Query -> CallScript, geminiReady: bool, gemini: Result<string>, decode: Decoder): seq<Query> {
    var candidates := Dedup(OpenAIProposal(openai, decode) + GeminiProposal(geminiReady, gemini, decode));
    var rounds := [Round(openai, decode, candidates, 1), Round(openai, decode, candidates, 2), Round(openai, decode, candidates, 3)];
    [InitialSelection] + RationaleQueries(candidates) + RoundQueries(3)
      + NarrowingQueries(Dedup(rounds[0] + rounds[1] + rounds[2]), Rationales(candidates, openai))
  }

  /** The message raised when no Gemini model was set up. */
  const GeminiMissing: string := "Gemini model not initialized. Check GEMINI_API_KEY."

  class PortfolioSelector {
    /** Clock reading after the last successful throttled call. */
    var lastApiCallTime: real
    /** Whether a Gemini model was set up. */
    const geminiReady: bool

    /** Gemini is set up only when a key is given and its set-up succeeds. */
    constructor(geminiKeyGiven: bool, geminiSetupSucceeds: bool)
      ensures geminiReady <==> geminiKeyGiven && geminiSetupSucceeds
      ensures lastApiCallTime == 0.0
    {
      geminiReady := geminiKeyGiven && geminiSetupSucceeds;
      lastApiCallTime := 0.0;
    }

    /** One throttled model call. */
    method RateLimitedCall(script: CallScript) returns (outcome: CallOutcome)
      modifies this
      ensures outcome == ThrottledCall(old(lastApiCallTime), script)
      ensures lastApiCallTime == LastCallAfter(old(lastApiCallTime), script)
    {
      var sleeps := [];
      var sinceLast := script.startedAt - lastApiCallTime;
      if sinceLast < MinDelay {
        sleeps := [MinDelay - sinceLast];
      }
      var retried := RetryLoop(script.attempts);
      if retried.finishedAt.Some? {
        lastApiCallTime := retried.finishedAt.value;
      }
      outcome := CallOutcome(retried.result, sleeps + retried.backoffs, retried.attempts);
    }

    /** The retry loop of a throttled call, with its back-off sleeps. */
    static method RetryLoop(attempts: nat -> Attempt) returns (r: Retried)
      ensures r == RetryFrom(attempts, 0)
    {
      var backoffs := [];
      var attempt := 0;
      while true
        invariant 0 <= attempt < MaxAttempts
        invariant RetryFrom(attempts, 0) == AfterBackoffs(backoffs, RetryFrom(attempts, attempt))
        decreases MaxAttempts - attempt
      {
        match attempts(attempt)
        case Succeeded(content, t) =>
          RetryEnds(attempts, attempt);
          assert backoffs + [] == backoffs;
          return Retried(Ok(content), backoffs, attempt + 1, Some(t));
        case Threw(m) =>
          if IsRateLimit(m) && attempt < MaxAttempts - 1 {
            var wait := 10.0 * (attempt + 1) as real;
            RetryAgain(attempts, attempt, m);
            AfterBackoffsTwice(backoffs, [wait], RetryFrom(attempts, attempt + 1));
            backoffs := backoffs + [wait];
            attempt := attempt + 1;
          } else {
            RetryEnds(attempts, attempt);
            assert backoffs + [] == backoffs;
            return Retried(Err(m), backoffs, attempt + 1, None);
          }
      }
    }

    /** A throttled call seen only through its result; the sleeps and the
        clock update are those of `RateLimitedCall`. */
    method Ask(script: CallScript) returns (reply: Result<string>)
      modifies this
      ensures reply == Reply(script)
      ensures lastApiCallTime == LastCallAfter(old(lastApiCallTime), script)
    {
      var outcome := RateLimitedCall(script);
      reply := outcome.result;
    }

    /** A rationale for each candidate, one throttled call each. */
    method GenerateRationales(candidates: seq<string>, openai: Query -> CallScript) returns (rationales: seq<(string, string)>)
      modifies this
      ensures rationales == Rationales(candidates, openai)
      ensures lastApiCallTime == ClockAfter(old(lastApiCallTime), openai, RationaleQueries(candidates))
    {
      rationales := [];
      for i := 0 to |candidates|
        invariant rationales == Rationales(candidates[..i], openai)
        invariant lastApiCallTime == ClockAfter(old(lastApiCallTime), openai, RationaleQueries(candidates[..i]))
      {
        var t := candidates[i];
        var reply := Ask(openai(TickerRationale(t)));
        rationales := rationales + [(t, Rationale(t, reply))];
        assert candidates[..i + 1][..i] == candidates[..i];
        assert candidates[..i + 1] == candidates[..i] + [t];
        RationaleQueriesSnoc(candidates[..i], t);
        ClockAfterSnoc(old(lastApiCallTime), openai, RationaleQueries(candidates[..i]), TickerRationale(t));
      }
      assert candidates[..|candidates|] == candidates;
    }

    /** Three rounds of five picks from the same candidates. */
    method SelectionRounds(candidates: seq<string>, openai: Query -> CallScript, decode: Decoder) returns (rounds: seq<seq<string>>)
      modifies this
      ensures rounds == [Round(openai, decode, candidates, 1), Round(openai, decode, candidates, 2), Round(openai, decode, candidates, 3)]
      ensures lastApiCallTime == ClockAfter(old(lastApiCallTime), openai, RoundQueries(3))
    {
      rounds := [];
      for round := 1 to 4
        invariant |rounds| == round - 1
        invariant forall k :: 0 <= k < |rounds| ==> rounds[k] == Round(openai, decode, candidates, k + 1)
        invariant lastApiCallTime == ClockAfter(old(lastApiCallTime), openai, RoundQueries(round - 1))
      {
        RoundQueriesSnoc(round - 1);
        ClockAfterSnoc(old(lastApiCallTime), openai, RoundQueries(round - 1), TopFive(round));
        var reply := Ask(openai(TopFive(round)));
        var picked := PickFive(reply, decode, candidates);
        assert picked == Round(openai, decode, candidates, round);
        rounds := rounds + [picked];
      }
      assert rounds == [rounds[0], rounds[1], rounds[2]];
    }

    /** The six-stage selection. The session log is returned with the
        result; a missing rationale aborts the run with a `KeyError`. */
    method SelectPortfolioTickers(openai: Query -> CallScript, gemini: Result<string>, decode: Decoder)
      returns (r: Result<Selected>)
      modifies this
      ensures r == Plan(openai, geminiReady, gemini, decode)
      ensures lastApiCallTime == ClockAfter(old(lastApiCallTime), openai, PlanQueries(openai, geminiReady, gemini, decode))
    {
      var stages: seq<Stage> := [];

      var reply := Ask(openai(InitialSelection));
      var openaiTickers := Proposal(reply, CleanReply, decode, OpenAIFallback, InitialCount);
      assert openaiTickers == OpenAIProposal(openai, decode);
      stages := stages + [OpenAIInitialSelection(openaiTickers)];

      var geminiReply := if geminiReady then gemini else Err(GeminiMissing);
      var geminiTickers := Proposal(geminiReply, CleanGeminiReply, decode, GeminiFallback, InitialCount);
      assert geminiTickers == GeminiProposal(geminiReady, gemini, decode);
      stages := stages + [GeminiInitialSelection(geminiTickers)];
      assert stages == [OpenAIInitialSelection(openaiTickers), GeminiInitialSelection(geminiTickers)];

      var candidates := Dedup(openaiTickers + geminiTickers);
      stages := stages + [Aggregation(candidates, |candidates|)];
      assert stages == [OpenAIInitialSelection(openaiTickers), GeminiInitialSelection(geminiTickers), Aggregation(candidates, |candidates|)];

      var rationales := GenerateRationales(candidates, openai);
      stages := stages + [RationaleGeneration(rationales)];
      assert stages == [OpenAIInitialSelection(openaiTickers), GeminiInitialSelection(geminiTickers), Aggregation(candidates, |candidates|),
        RationaleGeneration(rationales)];

      var rounds := SelectionRounds(candidates, openai, decode);
      stages := stages + [FinalSelectionRounds(rounds[0], rounds[1], rounds[2])];
      assert stages == [OpenAIInitialSelection(openaiTickers), GeminiInitialSelection(geminiTickers), Aggregation(candidates, |candidates|),
        RationaleGeneration(rationales), FinalSelectionRounds(rounds[0], rounds[1], rounds[2])];

      r := Conclude(openai, decode, candidates, rationales, rounds, stages);
      PlanClock(old(lastApiCallTime), openai, candidates, Dedup(rounds[0] + rounds[1] + rounds[2]), rationales);
    }

    /** The consolidation stage: the narrowing call is made only when more
        than five distinct tickers were picked and all have rationales. */
    method Conclude(openai: Query -> CallScript, decode: Decoder, candidates: seq<string>,
                    rationales: seq<(string, string)>, rounds: seq<seq<string>>, stages: seq<Stage>)
      returns (r: Result<Selected>)
      requires |rounds| == 3
      modifies this
      ensures r == Finish(openai, decode, candidates, rationales, rounds, stages)
      ensures var finalists := Dedup(rounds[0] + rounds[1] + rounds[2]);
        lastApiCallTime == if |finalists| > 5 && FirstUnexplained(finalists, rationales).None?
          then LastCallAfter(old(lastApiCallTime), openai(Narrowing)) else old(lastApiCallTime)
    {
      var finalists := Dedup(rounds[0] + rounds[1] + rounds[2]);
      var narrowing: Result<string> := Err("not asked");
      if |finalists| > 5 && FirstUnexplained(finalists, rationales).None? {
        narrowing := Ask(openai(Narrowing));
      }
      var chosen := Consolidate(finalists, narrowing, decode, rationales);
      if chosen.Err? {
        return Err(chosen.error);
      }
      var finalTickers := chosen.value;
      var log := stages + [FinalConsolidation(finalists, finalTickers)];
      r := Ok(Selected(finalTickers, Explain(finalTickers, rationales), candidates, rationales, rounds, log));
    }
  }

  /** A completed consolidation appends one log entry, keeps at most five
      tickers, and hands back each one's rationale. */
  lemma FinishShape(openai: Query -> CallScript, decode: Decoder, candidates: seq<string>,
                    rationales: seq<(string, string)>, rounds: seq<seq<string>>, log: seq<Stage>)
    requires |rounds| == 3
    requires Finish(openai, decode, candidates, rationales, rounds, log).Ok?
    ensures var s := Finish(openai, decode, candidates, rationales, rounds, log).value;
      && s.stages[..|log|] == log && |s.stages| == |log| + 1 && s.stages[|log|].FinalConsolidation?
      && s.allCandidates == candidates && s.allRationales == rationales && s.rounds == rounds
      && |s.finalTickers| <= 5 && |s.tickerRationales| == |s.finalTickers|
      && (forall i :: 0 <= i < |s.finalTickers| ==>
            s.tickerRationales[i].0 == s.finalTickers[i] && Find(rationales, s.finalTickers[i]) == Some(s.tickerRationales[i].1))
  {
    var finalists := Dedup(rounds[0] + rounds[1] + rounds[2]);
    var chosen := Consolidate(finalists, NarrowingReply(finalists, rationales, openai(Narrowing)), decode, rationales);
    assert chosen.Ok?;
    var s := Finish(openai, decode, candidates, rationales, rounds, log).value;
    assert s.stages == log + [FinalConsolidation(finalists, chosen.value)];
    assert s.finalTickers == chosen.value;
  }

  /** A completed run: six log entries in order, distinct candidates each
      with one rationale, at most five final tickers each with its rationale. */
  lemma CompletedRun(openai: Query -> CallScript, geminiReady: bool, gemini: Result<string>, decode: Decoder)
    requires Plan(openai, geminiReady, gemini, decode).Ok?
    ensures var s := Plan(openai, geminiReady, gemini, decode).value;
      && |s.stages| == 6 && s.stages[0].OpenAIInitialSelection? && s.stages[1].GeminiInitialSelection?
      && s.stages[2].Aggregation? && s.stages[3].RationaleGeneration?
      && s.stages[4].FinalSelectionRounds? && s.stages[5].FinalConsolidation?
      && s.stages[2].count == |s.allCandidates| && s.stages[2].uniqueTickers == s.allCandidates
      && |s.allCandidates| <= |s.stages[0].tickers| + |s.stages[1].tickers|
      && (forall t :: t in s.allCandidates <==> t in s.stages[0].tickers || t in s.stages[1].tickers)
      && NoDup(s.allCandidates)
      && KeysOf(s.allRationales) == s.allCandidates
      && |s.finalTickers| <= 5
      && |s.rounds| == 3
      && |s.rounds[0]| <= 5 && |s.rounds[1]| <= 5 && |s.rounds[2]| <= 5
      && (forall i :: 0 <= i < |s.finalTickers| ==> Find(s.allRationales, s.finalTickers[i]) == Some(s.tickerRationales[i].1))
  {
    var o := OpenAIProposal(openai, decode);
    var g := GeminiProposal(geminiReady, gemini, decode);
    var candidates := Dedup(o + g);
    var rationales := Rationales(candidates, openai);
    var rounds := [Round(openai, decode, candidates, 1), Round(openai, decode, candidates, 2), Round(openai, decode, candidates, 3)];
    var log := [OpenAIInitialSelection(o), GeminiInitialSelection(g), Aggregation(candidates, |candidates|),
       RationaleGeneration(rationales), FinalSelectionRounds(rounds[0], rounds[1], rounds[2])];
    assert Plan(openai, geminiReady, gemini, decode) == Finish(openai, decode, candidates, rationales, rounds, log);
    FinishShape(openai, decode, candidates, rationales, rounds, log);
    var s := Plan(openai, geminiReady, gemini, decode).value;
    assert s.stages[..5] == log;
    assert s.stages[0] == log[0] && s.stages[1] == log[1] && s.stages[2] == log[2] && s.stages[4] == log[4];
    PooledCandidates(o, g);
    assert s.rounds == rounds;
    assert |rounds[0]| <= 5 && |rounds[1]| <= 5 && |rounds[2]| <= 5;
    assert KeysOf(rationales) == candidates by {
      assert |KeysOf(rationales)| == |candidates|;
      forall i | 0 <= i < |candidates| ensures KeysOf(rationales)[i] == candidates[i] {
      }
    }
  }

  /** Aggregation pools both proposals without duplicates: a ticker is a
      candidate exactly when one of the selectors proposed it. */
  lemma PooledCandidates(o: seq<string>, g: seq<string>)
    ensures |Dedup(o + g)| <= |o| + |g|
    ensures forall t :: t in Dedup(o + g) <==> t in o || t in g
  {
    forall t ensures t in Dedup(o + g) <==> t in o + g {
      if t in o + g {
        var i :| 0 <= i < |o + g| && (o + g)[i] == t;
      }
    }
  }

  /** The two fallback lists are disjoint and free of duplicates, so pooling
      them keeps all forty tickers, whatever order the pool is in. */
  lemma FallbackPool()
    ensures var pool := Dedup(OpenAIFallback + GeminiFallback);
      && |pool| == 40
      && (forall t :: t in pool <==> t in OpenAIFallback || t in GeminiFallback)
  {
    var all := OpenAIFallback + GeminiFallback;
    OpenAIFallbackDistinct();
    GeminiFallbackDistinct();
    FallbacksDisjoint();
    assert NoDup(all) by {
      assert forall i :: 0 <= i < 20 ==> all[i] == OpenAIFallback[i] && all[20 + i] == GeminiFallback[i];
    }
    DedupOfDistinct(all);
    PooledCandidates(OpenAIFallback, GeminiFallback);
  }

  /** Neither fallback list holds a ticker twice, and they share none. */
  lemma OpenAIFallbackDistinct()
    ensures forall i, j :: 0 <= i < |OpenAIFallback| && 0 <= j < |OpenAIFallback| && i != j ==> OpenAIFallback[i] != OpenAIFallback[j]
  {
  }

  lemma GeminiFallbackDistinct()
    ensures forall i, j :: 0 <= i < |GeminiFallback| && 0 <= j < |GeminiFallback| && i != j ==> GeminiFallback[i] != GeminiFallback[j]
  {
  }

  lemma FallbacksDisjoint()
    ensures forall i, j :: 0 <= i < |OpenAIFallback| && 0 <= j < |GeminiFallback| ==> OpenAIFallback[i] != GeminiFallback[j]
  {
  }

  /** Failed first-stage calls give the fallback lists in full. */
  lemma FallbackProposals(openai: Query -> CallScript, gemini: Result<string>, decode: Decoder)
    requires Reply(openai(InitialSelection)).Err?
    ensures OpenAIProposal(openai, decode) == OpenAIFallback
    ensures GeminiProposal(false, gemini, decode) == GeminiFallback
  {
    assert |OpenAIFallback| == 20 && |GeminiFallback| == 20;
  }

  /** Failed rationale calls give the template for every candidate, and the
      rationale keys are the candidates themselves. */
  lemma TemplateRationales(candidates: seq<string>, openai: Query -> CallScript)
    requires forall i :: 0 <= i < |candidates| ==> Reply(openai(TickerRationale(candidates[i]))).Err?
    ensures var rs := Rationales(candidates, openai);
      && KeysOf(rs) == candidates
      && forall i :: 0 <= i < |rs| ==> rs[i].1 == TemplateRationale(rs[i].0)
  {
    var rs := Rationales(candidates, openai);
    assert |KeysOf(rs)| == |candidates|;
    forall i | 0 <= i < |candidates| ensures KeysOf(rs)[i] == candidates[i] {
    }
  }

  /** Three identical picks of distinct tickers, each with a rationale, are
      kept, in some order, without a narrowing call. */
  lemma UnanimousRounds(openai: Query -> CallScript, decode: Decoder, candidates: seq<string>,
                        rationales: seq<(string, string)>, top: seq<string>, log: seq<Stage>)
    requires NoDup(top) && |top| <= 5
    requires forall i :: 0 <= i < |top| ==> top[i] in KeysOf(rationales)
    ensures NarrowingQueries(Dedup(top + top + top), rationales) == []
    ensures Finish(openai, decode, candidates, rationales, [top, top, top], log).Ok?
    ensures var f := Finish(openai, decode, candidates, rationales, [top, top, top], log).value.finalTickers;
      multiset(f) == multiset(top) && NoDup(f) && |f| == |top| && (forall t :: t in f <==> t in top)
  {
    var rounds := [top, top, top];
    TripleDedup(top);
    ConsolidateFew(top, NarrowingReply(top, rationales, openai(Narrowing)), decode, rationales);
    FinishChosen(openai, decode, candidates, rationales, rounds, log, top);
  }

  /** Three copies of distinct tickers deduplicate to one. */
  lemma TripleDedup(top: seq<string>)
    requires NoDup(top)
    ensures Dedup(top + top + top) == top
  {
    assert top + top + top == top + (top + top);
    DedupAbsorbs(top, top + top);
    DedupOfDistinct(top);
  }

  /** The run ends with whatever consolidation chose. */
  lemma FinishChosen(openai: Query -> CallScript, decode: Decoder, candidates: seq<string>,
                     rationales: seq<(string, string)>, rounds: seq<seq<string>>, log: seq<Stage>, finalists: seq<string>)
    requires |rounds| == 3 && Dedup(rounds[0] + rounds[1] + rounds[2]) == finalists
    requires Consolidate(finalists, NarrowingReply(finalists, rationales, openai(Narrowing)), decode, rationales).Ok?
    ensures Finish(openai, decode, candidates, rationales, rounds, log).Ok?
    ensures Finish(openai, decode, candidates, rationales, rounds, log).value.finalTickers ==
      Consolidate(finalists, NarrowingReply(finalists, rationales, openai(Narrowing)), decode, rationales).value
  {
  }

  /** Five or fewer finalists, each with a rationale, are kept as they are. */
  lemma ConsolidateFew(finalists: seq<string>, narrowing: Result<string>, decode: Decoder, rationales: seq<(string, string)>)
    requires |finalists| <= 5
    requires forall i :: 0 <= i < |finalists| ==> finalists[i] in KeysOf(rationales)
    ensures Consolidate(finalists, narrowing, decode, rationales) == Ok(finalists)
  {
    assert FirstUnexplained(finalists, rationales).None?;
  }

  /** With every OpenAI call failing and no Gemini model, the run falls back
      throughout: the candidates are the forty fallback tickers, every
      rationale is the template, the three rounds pick the same five
      candidates, and those five are chosen. */
  lemma TotalOutage(openai: Query -> CallScript, gemini: Result<string>, decode: Decoder)
    requires forall q :: Reply(openai(q)).Err?
    ensures Plan(openai, false, gemini, decode).Ok?
    ensures var s := Plan(openai, false, gemini, decode).value;
      && (forall t :: t in s.allCandidates <==> t in OpenAIFallback || t in GeminiFallback)
      && |s.allCandidates| == 40 && NoDup(s.allCandidates)
      && (forall i :: 0 <= i < |s.allRationales| ==> s.allRationales[i].1 == TemplateRationale(s.allRationales[i].0))
      && |s.rounds| == 3 && s.rounds[0] == s.rounds[1] == s.rounds[2]
      && multiset(s.finalTickers) == multiset(s.rounds[0])
      && |s.finalTickers| == 5 && NoDup(s.finalTickers)
      && (forall i :: 0 <= i < |s.finalTickers| ==> s.finalTickers[i] in s.allCandidates)
  {
    FallbackProposals(openai, gemini, decode);
    var o := OpenAIProposal(openai, decode);
    var g := GeminiProposal(false, gemini, decode);
    var candidates := Dedup(o + g);
    var rationales := Rationales(candidates, openai);
    var rounds := [Round(openai, decode, candidates, 1), Round(openai, decode, candidates, 2), Round(openai, decode, candidates, 3)];
    var log := [OpenAIInitialSelection(o), GeminiInitialSelection(g), Aggregation(candidates, |candidates|),
       RationaleGeneration(rationales), FinalSelectionRounds(rounds[0], rounds[1], rounds[2])];
    OutageRounds(openai, decode, candidates);
    OutageSelection(openai, decode, candidates, log);
    assert Plan(openai, false, gemini, decode) == Finish(openai, decode, candidates, rationales, rounds, log);
    FinishShape(openai, decode, candidates, rationales, rounds, log);
    TemplateRationales(candidates, openai);
    FallbackPool();
  }

  /** When the three five-pick calls fail, each round picks the first five
      of the candidates. */
  lemma OutageRounds(openai: Query -> CallScript, decode: Decoder, candidates: seq<string>)
    requires Reply(openai(TopFive(1))).Err? && Reply(openai(TopFive(2))).Err? && Reply(openai(TopFive(3))).Err?
    ensures var top := Take(candidates, 5);
      [Round(openai, decode, candidates, 1), Round(openai, decode, candidates, 2), Round(openai, decode, candidates, 3)] == [top, top, top]
  {
  }

  /** When every round picks the first five of distinct candidates, no
      narrowing call is made and those five are chosen, in some order. */
  lemma OutageSelection(openai: Query -> CallScript, decode: Decoder, candidates: seq<string>, log: seq<Stage>)
    requires NoDup(candidates)
    ensures var top := Take(candidates, 5);
      && NarrowingQueries(Dedup(top + top + top), Rationales(candidates, openai)) == []
      && Finish(openai, decode, candidates, Rationales(candidates, openai), [top, top, top], log).Ok?
      && var f := Finish(openai, decode, candidates, Rationales(candidates, openai), [top, top, top], log).value.finalTickers;
         && multiset(f) == multiset(top) && |f| == |top|
         && NoDup(f) && (forall i :: 0 <= i < |f| ==> f[i] in candidates)
  {
    var top := Take(candidates, 5);
    var rationales := Rationales(candidates, openai);
    assert NoDup(top) && (forall t :: t in top ==> t in candidates) by {
      assert forall i :: 0 <= i < |top| ==> top[i] == candidates[i];
    }
    assert forall i :: 0 <= i < |top| ==> top[i] in KeysOf(rationales) by {
      forall i | 0 <= i < |top| ensures top[i] in KeysOf(rationales) {
        assert top[i] == candidates[i] == KeysOf(rationales)[i];
      }
    }
    UnanimousRounds(openai, decode, candidates, rationales, top, log);
  }

  /** With every OpenAI call failing, a whole run makes no narrowing request
      and leaves the rate-limiter clock where it was. */
  lemma OutageCalls(openai: Query -> CallScript, gemini: Result<string>, decode: Decoder, last: real)
    requires forall q :: Reply(openai(q)).Err?
    ensures Narrowing !in PlanQueries(openai, false, gemini, decode)
    ensures ClockAfter(last, openai, PlanQueries(openai, false, gemini, decode)) == last
  {
    var candidates := Dedup(OpenAIProposal(openai, decode) + GeminiProposal(false, gemini, decode));
    var qs := PlanQueries(openai, false, gemini, decode);
    var rq := RationaleQueries(candidates);
    assert qs == [InitialSelection] + rq + RoundQueries(3) by {
      var rounds := [Round(openai, decode, candidates, 1), Round(openai, decode, candidates, 2), Round(openai, decode, candidates, 3)];
      OutageRounds(openai, decode, candidates);
      OutageSelection(openai, decode, candidates, []);
      assert NarrowingQueries(Dedup(rounds[0] + rounds[1] + rounds[2]), Rationales(candidates, openai)) == [];
    }
    assert Narrowing !in rq by {
      assert forall i :: 0 <= i < |rq| ==> rq[i].TickerRationale?;
    }
    assert Narrowing !in RoundQueries(3) by {
      assert forall k :: 0 <= k < 3 ==> RoundQueries(3)[k].TopFive?;
    }
    ClockStill(last, openai, qs);
  }
}
