/** The decision helpers of the web front end: parsing the multi-ticker
    input, the score colour gradient, the market-cap bands, the agent
    collaboration remarks, the key-factor list and the overall-assessment
    band. The page rendering around them is not modelled. */
module Display {
  import opened Wrappers
  import opened Collections
  import Text
  import Scoring

  // ---------------------------------------------------------------------
  // Multi-ticker input

  /** The characters of the `[,\s\n]+` separator runs. */
  const TickerSeparators: set<char> := Text.Whitespace + {','}

  /** `re.split(r'[,\s\n]+', s)`: the pieces between maximal separator
      runs, with an empty piece at either end where `s` starts or ends with
      a separator. */
  function SplitOnSeparators(s: string): (r: seq<string>)
    ensures |r| > 0
    ensures forall i :: 0 <= i < |r| ==> forall c :: c in r[i] ==> c !in TickerSeparators
  {
    if s == [] then [[]]
    else
      var r := SplitOnSeparators(s[..|s| - 1]);
      var c := s[|s| - 1];
      if c in TickerSeparators then
        if |s| > 1 && s[|s| - 2] in TickerSeparators then r else r + [[]]
      else r[..|r| - 1] + [r[|r| - 1] + [c]]
  }

  function Concat(pieces: seq<string>): string {
    if pieces == [] then [] else Concat(pieces[..|pieces| - 1]) + pieces[|pieces| - 1]
  }

  /** `s` without its separator characters. */
  function WithoutSeparators(s: string): string {
    if s == [] then []
    else WithoutSeparators(s[..|s| - 1]) + (if s[|s| - 1] in TickerSeparators then [] else [s[|s| - 1]])
  }

  lemma {:induction false} ConcatSnoc(pieces: seq<string>, c: char)
    requires pieces != []
    ensures Concat(pieces[..|pieces| - 1] + [pieces[|pieces| - 1] + [c]]) == Concat(pieces) + [c]
  {
    var init := pieces[..|pieces| - 1];
    assert (init + [pieces[|pieces| - 1] + [c]])[..|init|] == init;
  }

  /** Splitting loses exactly the separators: the pieces put back together
      are the input with its separators removed. */
  lemma {:induction false} SplitKeepsText(s: string)
    ensures Concat(SplitOnSeparators(s)) == WithoutSeparators(s)
  {
    if s != [] {
      var init := s[..|s| - 1];
      SplitKeepsText(init);
      var r := SplitOnSeparators(init);
      var c := s[|s| - 1];
      if c in TickerSeparators {
        if !(|s| > 1 && s[|s| - 2] in TickerSeparators) {
          assert (r + [[]])[..|r|] == r;
        }
      } else {
        ConcatSnoc(r, c);
      }
    }
  }

  /** `[t.strip().upper() for t in pieces if t.strip()]`. */
  function TickerList(pieces: seq<string>): (r: seq<string>)
    ensures forall i :: 0 <= i < |r| ==> r[i] != []
  {
    if pieces == [] then []
    else
      var t := Text.Strip(pieces[|pieces| - 1]);
      TickerList(pieces[..|pieces| - 1]) + (if t != [] then [Text.Upper(t)] else [])
  }

  /** The tickers named in the input, duplicates dropped in order of first
      appearance. */
  function Tickers(input: string): seq<string> {
    Dedup(TickerList(SplitOnSeparators(input)))
  }

  /** The ticker-parsing block of the analysis page. */
  method ParseTickers(input: string) returns (tickers: seq<string>)
    ensures tickers == Tickers(input)
  {
    tickers := RemoveDuplicates(TickerList(SplitOnSeparators(input)));
  }

  /** The `seen`/`append` loop that drops repeated tickers. */
  method RemoveDuplicates<T(==)>(tickerList: seq<T>) returns (tickers: seq<T>)
    ensures tickers == Dedup(tickerList)
  {
    var seen: set<T> := {};
    tickers := [];
    for i := 0 to |tickerList|
      invariant tickers == Dedup(tickerList[..i])
      invariant forall u :: u in seen <==> u in tickerList[..i]
    {
      var t := tickerList[i];
      assert tickerList[..i + 1] == tickerList[..i] + [t];
      DedupSnocStep(tickerList[..i], t);
      if t !in seen {
        seen := seen + {t};
        tickers := tickers + [t];
      }
    }
    assert tickerList[..|tickerList|] == tickerList;
  }

  lemma UpperKeepsOut(t: string, c: char)
    requires c !in t && c in TickerSeparators
    ensures c !in Text.Upper(t)
  {
    var u := Text.Upper(t);
    forall i | 0 <= i < |u| ensures u[i] != c {
      assert u[i] == Text.UpperChar(t[i]);
    }
  }

  lemma {:induction false} TickerListClean(pieces: seq<string>)
    requires forall i :: 0 <= i < |pieces| ==> forall c :: c in pieces[i] ==> c !in TickerSeparators
    ensures forall i :: 0 <= i < |TickerList(pieces)| ==>
      forall c :: c in TickerList(pieces)[i] ==> c !in TickerSeparators && !('a' <= c <= 'z')
  {
    if pieces != [] {
      var init := pieces[..|pieces| - 1];
      TickerListClean(init);
      var p := pieces[|pieces| - 1];
      var t := Text.Strip(p);
      if t != [] {
        var u := Text.Upper(t);
        forall c | c in u ensures c !in TickerSeparators && !('a' <= c <= 'z') {
          var k :| 0 <= k < |u| && u[k] == c;
          if c in TickerSeparators {
            Text.StripWithin(p, c);
            UpperKeepsOut(t, c);
          }
        }
        var r := TickerList(init);
        assert TickerList(pieces) == r + [u];
        forall i | 0 <= i < |r| + 1 ensures forall c :: c in TickerList(pieces)[i] ==> c !in TickerSeparators && !('a' <= c <= 'z') {
          if i < |r| {
            assert TickerList(pieces)[i] == r[i];
          }
        }
      }
    }
  }

  /** The parsed tickers are distinct, non-empty, free of separators and
      lower-case ASCII letters, and every ticker of the comprehension is
      among them. */
  lemma TickersClean(input: string)
    ensures var r := Tickers(input);
      && NoDup(r)
      && (forall i :: 0 <= i < |r| ==> r[i] != [] && forall c :: c in r[i] ==> c !in TickerSeparators && !('a' <= c <= 'z'))
      && (forall t :: t in TickerList(SplitOnSeparators(input)) ==> t in r)
  {
    var l := TickerList(SplitOnSeparators(input));
    TickerListClean(SplitOnSeparators(input));
    var r := Tickers(input);
    forall i | 0 <= i < |r| ensures r[i] != [] && forall c :: c in r[i] ==> c !in TickerSeparators && !('a' <= c <= 'z') {
      var k :| 0 <= k < |l| && l[k] == r[i];
    }
  }

  // ---------------------------------------------------------------------
  // Score colour

  datatype Rgb = Rgb(red: int, green: int, blue: int)

  /** `max(0, min(100, score))`. */
  function ClampScore(score: real): (c: real)
    ensures 0.0 <= c <= 100.0
    ensures 0.0 <= score <= 100.0 ==> c == score
  {
    if score > 100.0 then 100.0 else if score < 0.0 then 0.0 else score
  }

  /** `int(255 * fraction)` for a fraction in [0, 1]. */
  function Channel(fraction: real): (v: int)
    requires 0.0 <= fraction <= 1.0
    ensures 0 <= v <= 255
  {
    (255.0 * fraction).Floor
  }

  lemma ChannelMonotone(f: real, g: real)
    requires 0.0 <= f <= g <= 1.0
    ensures Channel(f) <= Channel(g)
  {
  }

  /** The lower half's ratio `normalized * 2`. */
  function RisingRatio(c: real): real {
    c / 50.0
  }

  /** The upper half's ratio `(normalized - 0.5) * 2`, complemented. */
  function FallingRatio(c: real): real {
    1.0 - (c - 50.0) / 50.0
  }

  /** `get_gradient_color`: red to yellow up to 50, yellow to green above. */
  function GradientColor(score: real): (rgb: Rgb)
    ensures 0 <= rgb.red <= 255 && 0 <= rgb.green <= 255 && rgb.blue == 0
    ensures ClampScore(score) <= 50.0 ==> rgb.red == 255
    ensures ClampScore(score) > 50.0 ==> rgb.green == 255
  {
    var c := ClampScore(score);
    if c / 100.0 <= 0.5 then Rgb(255, Channel(RisingRatio(c)), 0)
    else Rgb(Channel(FallingRatio(c)), 255, 0)
  }

  /** The colour moves one way only: a higher score never has less green
      nor more red; the ends are pure red, yellow at 50 and pure green. */
  lemma GradientMonotone(s: real, t: real)
    requires s <= t
    ensures GradientColor(s).green <= GradientColor(t).green
    ensures GradientColor(s).red >= GradientColor(t).red
    ensures GradientColor(0.0) == Rgb(255, 0, 0)
    ensures GradientColor(50.0) == Rgb(255, 255, 0)
    ensures GradientColor(100.0) == Rgb(0, 255, 0)
  {
    var cs, ct := ClampScore(s), ClampScore(t);
    assert cs <= ct;
    if ct <= 50.0 {
      ChannelMonotone(RisingRatio(cs), RisingRatio(ct));
    } else if cs > 50.0 {
      ChannelMonotone(FallingRatio(ct), FallingRatio(cs));
    }
    assert RisingRatio(50.0) == 1.0;
    assert FallingRatio(100.0) == 0.0;
  }

  function ColorText(rgb: Rgb): string
    requires 0 <= rgb.red && 0 <= rgb.green && 0 <= rgb.blue
  {
    "rgb(" + Text.NatToString(rgb.red) + "," + Text.NatToString(rgb.green) + "," + Text.NatToString(rgb.blue) + ")"
  }

  // ---------------------------------------------------------------------
  // Market-cap bands

  const LargeCapFloor: real := 200_000_000_000.0
  const MidCapFloor: real := 10_000_000_000.0

  datatype CapCategory = UnknownCap | SmallCap | MidCap | LargeCap {
    function Label(): string {
      match this
      case UnknownCap => "Unknown"
      case SmallCap => "Small Cap"
      case MidCap => "Mid Cap"
      case LargeCap => "Large Cap"
    }

    function Size(): nat {
      match this
      case UnknownCap => 0
      case SmallCap => 1
      case MidCap => 2
      case LargeCap => 3
    }
  }

  /** `get_market_cap_category`: a missing or zero cap is unknown. */
  function MarketCapCategory(marketCap: Option<real>): (c: CapCategory)
    ensures c == UnknownCap <==> (marketCap == None || marketCap.value == 0.0)
  {
    if marketCap == None || marketCap.value == 0.0 then UnknownCap
    else if marketCap.value > LargeCapFloor then LargeCap
    else if marketCap.value > MidCapFloor then MidCap
    else SmallCap
  }

  /** For known caps the bands are ordered by size: a larger cap is never
      put in a smaller band. */
  lemma MarketCapMonotone(a: real, b: real)
    requires a != 0.0 && b != 0.0 && a <= b
    ensures 1 <= MarketCapCategory(Some(a)).Size() <= MarketCapCategory(Some(b)).Size()
  {
  }

  // ---------------------------------------------------------------------
  // Agent collaboration

  /** Which remark an agent's card shows; the text quotes the peer's score. */
  datatype RemarkKind =
    | GrowthAgrees | GrowthDisagrees | GrowthMoreOptimistic
    | ValueConcurs | ValueSeesOpportunity | ValueCautious
    | SentimentConfirms | SentimentAgrees
    | RiskValidates | RiskConcurs

  datatype Remark = Remark(kind: RemarkKind, peerScore: real)

  function Abs(x: real): real {
    if x < 0.0 then -x else x
  }

  function ValueGrowthRemarks(value: real, growth: real): map<Scoring.AgentId, Remark> {
    if Abs(value - growth) < 10.0 then
      map[Scoring.ValueAgent := Remark(GrowthAgrees, growth), Scoring.GrowthAgent := Remark(ValueConcurs, value)]
    else if value > growth + 15.0 then
      map[Scoring.ValueAgent := Remark(GrowthDisagrees, growth), Scoring.GrowthAgent := Remark(ValueSeesOpportunity, value)]
    else
      map[Scoring.ValueAgent := Remark(GrowthMoreOptimistic, growth), Scoring.GrowthAgent := Remark(ValueCautious, value)]
  }

  function RiskSentimentRemarks(risk: real, sentiment: real): map<Scoring.AgentId, Remark> {
    if risk > 70.0 && sentiment > 70.0 then
      map[Scoring.RiskAgent := Remark(SentimentConfirms, sentiment), Scoring.SentimentAgent := Remark(RiskValidates, risk)]
    else if risk < 50.0 && sentiment < 50.0 then
      map[Scoring.RiskAgent := Remark(SentimentAgrees, sentiment), Scoring.SentimentAgent := Remark(RiskConcurs, risk)]
    else map[]
  }

  /** `get_agent_collaboration` over the result's agent scores. */
  function Collaboration(scores: map<Scoring.AgentId, real>): map<Scoring.AgentId, Remark> {
    var vg := if Scoring.ValueAgent in scores && Scoring.GrowthAgent in scores
      then ValueGrowthRemarks(scores[Scoring.ValueAgent], scores[Scoring.GrowthAgent]) else map[];
    var rs := if Scoring.RiskAgent in scores && Scoring.SentimentAgent in scores
      then RiskSentimentRemarks(scores[Scoring.RiskAgent], scores[Scoring.SentimentAgent]) else map[];
    vg + rs
  }

  /** Remarks come in pairs: value and growth both get one exactly when
      both scored; risk and sentiment both get one exactly when both scored
      and agree (both above 70 or both below 50); the macro agent never
      does. */
  lemma CollaborationPairs(scores: map<Scoring.AgentId, real>)
    ensures var r := Collaboration(scores);
      && (Scoring.ValueAgent in r <==> Scoring.ValueAgent in scores && Scoring.GrowthAgent in scores)
      && (Scoring.GrowthAgent in r <==> Scoring.ValueAgent in r)
      && (Scoring.RiskAgent in r <==>
            Scoring.RiskAgent in scores && Scoring.SentimentAgent in scores
            && ((scores[Scoring.RiskAgent] > 70.0 && scores[Scoring.SentimentAgent] > 70.0)
                || (scores[Scoring.RiskAgent] < 50.0 && scores[Scoring.SentimentAgent] < 50.0)))
      && (Scoring.SentimentAgent in r <==> Scoring.RiskAgent in r)
      && Scoring.MacroAgent !in r
  {
  }

  /** Each remark quotes its peer's score, and the value and growth cards
      agree exactly when the scores are within 10 of each other. */
  lemma CollaborationQuotesPeer(scores: map<Scoring.AgentId, real>)
    requires Scoring.ValueAgent in scores && Scoring.GrowthAgent in scores
    ensures var r := Collaboration(scores);
      && Scoring.ValueAgent in r && Scoring.GrowthAgent in r
      && r[Scoring.ValueAgent].peerScore == scores[Scoring.GrowthAgent]
      && r[Scoring.GrowthAgent].peerScore == scores[Scoring.ValueAgent]
      && (r[Scoring.ValueAgent].kind == GrowthAgrees <==> Abs(scores[Scoring.ValueAgent] - scores[Scoring.GrowthAgent]) < 10.0)
      && (r[Scoring.ValueAgent].kind == GrowthAgrees <==> r[Scoring.GrowthAgent].kind == ValueConcurs)
  {
  }

  // ---------------------------------------------------------------------
  // Key factors

  datatype Factor =
    | LowPe(pe: real) | HighPe(pe: real) | AttractiveYield(dividendYield: real)
    | HighBeta(beta: real) | LowBeta(beta: real)
    | BetaLowersRisk | BetaRaisesVolatility
    | ExceptionalScore | StrongScore | ScoreConcerns
  {
    predicate FromScore() {
      this == ExceptionalScore || this == StrongScore || this == ScoreConcerns
    }
  }

  function ValueFactors(f: Scoring.Fundamentals): seq<Factor> {
    var pe := f.peRatio.GetOr(0.0);
    var dy := f.dividendYield.GetOr(0.0);
    (if pe != 0.0 && pe < 15.0 then [LowPe(pe)] else if pe != 0.0 && pe > 25.0 then [HighPe(pe)] else [])
    + (if dy != 0.0 && dy > 0.03 then [AttractiveYield(dy)] else [])
  }

  function GrowthFactors(f: Scoring.Fundamentals): seq<Factor> {
    var beta := f.beta.GetOr(1.0);
    if beta > 1.5 then [HighBeta(beta)] else if beta < 0.5 then [LowBeta(beta)] else []
  }

  function RiskFactors(f: Scoring.Fundamentals): seq<Factor> {
    var beta := f.beta.GetOr(1.0);
    if beta < 0.8 then [BetaLowersRisk] else if beta > 1.5 then [BetaRaisesVolatility] else []
  }

  function ScoreFactors(score: real): seq<Factor> {
    if score >= 80.0 then [ExceptionalScore]
    else if score >= 70.0 then [StrongScore]
    else if score < 40.0 then [ScoreConcerns]
    else []
  }

  /** The factors read from the fundamentals, by agent. */
  function AgentFactors(agent: Scoring.AgentId, f: Scoring.Fundamentals): seq<Factor> {
    match agent
    case ValueAgent => ValueFactors(f)
    case GrowthAgent => GrowthFactors(f)
    case RiskAgent => RiskFactors(f)
    case _ => []
  }

  /** `extract_key_factors`; a missing agent score reads as 0. */
  function KeyFactors(agent: Scoring.AgentId, f: Scoring.Fundamentals, scores: map<Scoring.AgentId, real>): seq<Factor> {
    AgentFactors(agent, f) + ScoreFactors(if agent in scores then scores[agent] else 0.0)
  }

  lemma AgentFactorsShape(agent: Scoring.AgentId, f: Scoring.Fundamentals)
    ensures var r := AgentFactors(agent, f);
      && |r| <= 2
      && (forall i :: 0 <= i < |r| ==> !r[i].FromScore())
      && (agent == Scoring.MacroAgent || agent == Scoring.SentimentAgent ==> r == [])
  {
  }

  function CountScoreFactors(fs: seq<Factor>): nat {
    if fs == [] then 0 else CountScoreFactors(fs[..|fs| - 1]) + (if fs[|fs| - 1].FromScore() then 1 else 0)
  }

  lemma {:induction false} CountScoreFactorsAppend(a: seq<Factor>, b: seq<Factor>)
    ensures CountScoreFactors(a + b) == CountScoreFactors(a) + CountScoreFactors(b)
    decreases |b|
  {
    if b == [] {
      assert a + b == a;
    } else {
      assert (a + b)[..|a + b| - 1] == a + b[..|b| - 1];
      CountScoreFactorsAppend(a, b[..|b| - 1]);
    }
  }

  lemma {:induction false} NoScoreFactors(fs: seq<Factor>)
    requires forall i :: 0 <= i < |fs| ==> !fs[i].FromScore()
    ensures CountScoreFactors(fs) == 0
  {
    if fs != [] {
      NoScoreFactors(fs[..|fs| - 1]);
    }
  }

  /** At most three factors; exactly one comes from the score unless the
      score is in [40, 70), and it comes last; the macro and sentiment
      agents get nothing but that one. */
  lemma KeyFactorsShape(agent: Scoring.AgentId, f: Scoring.Fundamentals, scores: map<Scoring.AgentId, real>)
    ensures var r := KeyFactors(agent, f, scores);
      var score := if agent in scores then scores[agent] else 0.0;
      && |r| <= 3
      && CountScoreFactors(r) == (if 40.0 <= score < 70.0 then 0 else 1)
      && (CountScoreFactors(r) == 1 ==> r[|r| - 1].FromScore())
      && (agent == Scoring.MacroAgent || agent == Scoring.SentimentAgent ==> |r| <= 1)
  {
    var score := if agent in scores then scores[agent] else 0.0;
    var specific := AgentFactors(agent, f);
    var tail := ScoreFactors(score);
    AgentFactorsShape(agent, f);
    NoScoreFactors(specific);
    ScoreFactorsShape(score);
    CountScoreFactorsAppend(specific, tail);
    assert KeyFactors(agent, f, scores) == specific + tail;
  }

  lemma ScoreFactorsShape(score: real)
    ensures var t := ScoreFactors(score);
      && |t| == CountScoreFactors(t) == (if 40.0 <= score < 70.0 then 0 else 1)
      && (t != [] ==> t[0].FromScore())
  {
    var t := ScoreFactors(score);
    if t != [] {
      assert t[..0] == [];
    }
  }

  // ---------------------------------------------------------------------
  // Overall assessment

  /** The overall-assessment banner of the single-stock view. */
  function Assessment(finalScore: real): (v: Scoring.Verdict)
    ensures v == Scoring.Recommend(finalScore)
  {
    if finalScore >= 80.0 then Scoring.StrongBuy
    else if finalScore >= 70.0 then Scoring.Buy
    else if finalScore >= 60.0 then Scoring.Hold
    else if finalScore >= 40.0 then Scoring.WeakHold
    else Scoring.Sell
  }
}
