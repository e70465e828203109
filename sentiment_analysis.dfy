/** The sentiment analysis service: which model an agent's requests go to,
    the verdict for one text and for a batch, model recommendations by use
    case, and the statistics shown over a list of results. */
module SentimentAnalysis {
  import opened Base
  import opened Text
  import opened Types
  import Config
  import opened HuggingFace

  // ---------------------------------------------------------------------------
  // Model selection

  const NO_MODEL_CONFIGURED: string := "No model configured for this agent"
  const DEFAULT_TEST_TEXT: string := "This is a test message for sentiment analysis."

  /** The model an agent names itself: its transformer model if it has one,
      else its custom model id unless that is empty. */
  function ConfiguredModel(agent: Agent): (m: Option<string>)
    ensures m.None? <==> agent.transformerModel.None? && Truthy(agent.customModelId).None?
  {
    if agent.transformerModel.Some? then Some(agent.transformerModel.value.modelId)
    else Truthy(agent.customModelId)
  }

  /** The model `analyzeWithAgent` uses: the configured one, else the first
      default model. */
  function ModelFor(agent: Agent): (id: string)
    ensures ConfiguredModel(agent).Some? ==> id == ConfiguredModel(agent).value
  {
    match ConfiguredModel(agent)
    case Some(id) => id
    case None => Config.DEFAULT_MODELS[0].modelId
  }

  /** The precedence: transformer model, then a non-empty custom model id,
      then the first default model. */
  lemma ModelPrecedence(agent: Agent)
    ensures agent.transformerModel.Some? ==> ModelFor(agent) == agent.transformerModel.value.modelId
    ensures agent.transformerModel.None? && agent.customModelId.Some? && agent.customModelId.value != "" ==>
      ModelFor(agent) == agent.customModelId.value
    ensures agent.transformerModel.None? && (agent.customModelId.None? || agent.customModelId.value == "") ==>
      ModelFor(agent) == "distilbert-base-uncased-finetuned-sst-2-english"
  {
  }

  // ---------------------------------------------------------------------------
  // One verdict

  /** `analyzeWithAgent` at time `now`, where `response` is what the
      inference request brings back: a failed analysis is neutral with
      confidence 0, a successful one is converted from its ranking. */
  function AgentVerdict(agent: Agent, text: string, requestId: int,
                        response: Result<HttpResponse, Thrown>, now: int): (r: SentimentResult)
    ensures r.requestId == requestId && r.timestamp == now
    ensures r.sentiment in {POSITIVE, NEUTRAL, NEGATIVE}
    ensures Analysis(text, ModelFor(agent), response).error.Some? ==>
      r.sentiment == NEUTRAL && r.confidence == 0
    ensures Analysis(text, ModelFor(agent), response).error.None? ==>
      Verdict(r.sentiment, r.confidence) == ConvertToSentiment(Analysis(text, ModelFor(agent), response).predictions)
  {
    var result := Analysis(text, ModelFor(agent), response);
    AnalysisFailureShape(text, ModelFor(agent), response);
    if Truthy(result.error).Some? then SentimentResult(requestId, NEUTRAL, 0, now)
    else
      var v := ConvertToSentiment(result.predictions);
      SentimentResult(requestId, v.sentiment, v.confidence, now)
  }

  /** An over-long text is never analysed: its verdict is neutral with
      confidence 0. */
  lemma LongTextIsNeutral(agent: Agent, text: string, requestId: int,
                          response: Result<HttpResponse, Thrown>, now: int)
    requires |text| > Config.MAX_TEXT_LENGTH
    ensures AgentVerdict(agent, text, requestId, response, now) == SentimentResult(requestId, NEUTRAL, 0, now)
  {
  }

  /** `analyzeWithAgent`, asking `hf` for the analysis. */
  method AnalyzeWithAgent(hf: HuggingFaceService, agent: Agent, text: string, requestId: int,
                          response: Result<HttpResponse, Thrown>, now: int)
    returns (r: SentimentResult)
    ensures r == AgentVerdict(agent, text, requestId, response, now)
  {
    var modelId: string;
    if agent.transformerModel.Some? {
      modelId := agent.transformerModel.value.modelId;
    } else if agent.customModelId.Some? && agent.customModelId.value != "" {
      modelId := agent.customModelId.value;
    } else {
      modelId := Config.DEFAULT_MODELS[0].modelId;
    }
    var _, result := hf.AnalyzeSentiment(text, modelId, response);
    if result.error.Some? && result.error.value != "" {
      return SentimentResult(requestId, NEUTRAL, 0, now);
    }
    var v := ConvertToSentiment(result.predictions);
    r := SentimentResult(requestId, v.sentiment, v.confidence, now);
  }

  /** `testAgentModel`: the analysis of `testText` (a default text when it
      is absent or empty) by the agent's own model, or a failure when the
      agent names none; there is no fallback to a default model. */
  method TestAgentModel(hf: HuggingFaceService, agent: Agent, testText: Option<string>,
                        response: Result<HttpResponse, Thrown>)
    returns (r: Result<TransformerAnalysisResult, string>)
    ensures ConfiguredModel(agent).None? <==> r.Failure?
    ensures r.Failure? ==> r.error == NO_MODEL_CONFIGURED
    ensures r.Success? ==>
      r.value == Analysis(OrElse(testText, DEFAULT_TEST_TEXT), ConfiguredModel(agent).value, response)
  {
    var text := OrElse(testText, DEFAULT_TEST_TEXT);
    var modelId: string;
    if agent.transformerModel.Some? {
      modelId := agent.transformerModel.value.modelId;
    } else if agent.customModelId.Some? && agent.customModelId.value != "" {
      modelId := agent.customModelId.value;
    } else {
      return Failure(NO_MODEL_CONFIGURED);
    }
    var _, result := hf.AnalyzeSentiment(text, modelId, response);
    r := Success(result);
  }

  /** A test that runs uses the model the agent's requests use. */
  lemma TestUsesRequestModel(agent: Agent)
    requires ConfiguredModel(agent).Some?
    ensures ModelFor(agent) == ConfiguredModel(agent).value
  {
  }

  // ---------------------------------------------------------------------------
  // Batches

  /** `batchAnalyze`: the texts analysed one after another, the `i`-th with
      request id `startingRequestId + i`, the answer `answer(i)` and the
      time `clock(i)`. */
  method BatchAnalyze(hf: HuggingFaceService, agent: Agent, texts: seq<string>, startingRequestId: int,
                      answer: nat -> Result<HttpResponse, Thrown>, clock: nat -> int)
    returns (results: seq<SentimentResult>)
    ensures |results| == |texts|
    ensures forall i :: 0 <= i < |texts| ==> results[i].requestId == startingRequestId + i
    ensures forall i :: 0 <= i < |texts| ==>
      results[i] == AgentVerdict(agent, texts[i], startingRequestId + i, answer(i), clock(i))
  {
    results := [];
    var i := 0;
    while i < |texts|
      invariant 0 <= i <= |texts|
      invariant |results| == i
      invariant forall k :: 0 <= k < i ==>
        results[k] == AgentVerdict(agent, texts[k], startingRequestId + k, answer(k), clock(k))
    {
      var result := AnalyzeWithAgent(hf, agent, texts[i], startingRequestId + i, answer(i), clock(i));
      assert forall k :: 0 <= k < i ==> (results + [result])[k] == results[k];
      results := results + [result];
      i := i + 1;
    }
    forall k | 0 <= k < |texts|
      ensures results[k].requestId == startingRequestId + k
    {
      assert results[k] == AgentVerdict(agent, texts[k], startingRequestId + k, answer(k), clock(k));
    }
  }

  // ---------------------------------------------------------------------------
  // Recommendations

  /** The families of use case `getModelRecommendations` tells apart. */
  datatype UseCase = Financial | Social | Reviews | Emotions | General

  /** The use case a lower-cased request names; anything unknown is general. */
  function UseCaseOf(lowered: string): UseCase
  {
    if lowered in {"financial", "finance", "trading"} then Financial
    else if lowered in {"social", "twitter", "social media"} then Social
    else if lowered in {"reviews", "product", "ecommerce"} then Reviews
    else if lowered in {"emotions", "emotion"} then Emotions
    else General
  }

  /** Whether `m` suits the use case. */
  predicate Suits(useCase: UseCase, m: TransformerModel)
  {
    match useCase
    case Financial => Contains(m.id, "financial")
    case Social => Contains(ToLower(m.description), "twitter") || Contains(ToLower(m.description), "social")
    case Reviews => Contains(ToLower(m.description), "review")
    case Emotions => Contains(m.id, "emotion")
    case General => Contains(m.id, "general")
  }

  /** The models suiting the use case, in their order. */
  function Suiting(models: seq<TransformerModel>, useCase: UseCase): (r: seq<TransformerModel>)
    ensures |r| <= |models|
    ensures forall m :: m in r <==> m in models && Suits(useCase, m)
  {
    if models == [] then []
    else (if Suits(useCase, models[0]) then [models[0]] else []) + Suiting(models[1..], useCase)
  }

  /** Filtering works piecewise, so the models kept stay in the order of
      the list filtered. */
  lemma {:induction false} SuitingAppend(a: seq<TransformerModel>, b: seq<TransformerModel>, useCase: UseCase)
    ensures Suiting(a + b, useCase) == Suiting(a, useCase) + Suiting(b, useCase)
  {
    if a == [] {
      assert a + b == b;
    } else {
      assert (a + b)[1..] == a[1..] + b;
      SuitingAppend(a[1..], b, useCase);
    }
  }

  /** `getModelRecommendations`: every default model when no use case is
      given (or the empty one), else the default models suiting the use
      case named, read without regard to case. */
  function Recommendations(useCase: Option<string>): (r: seq<TransformerModel>)
    ensures Truthy(useCase).None? ==> r == Config.DEFAULT_MODELS
    ensures Truthy(useCase).Some? ==>
      forall m :: m in r <==> m in Config.DEFAULT_MODELS && Suits(UseCaseOf(ToLower(useCase.value)), m)
  {
    if Truthy(useCase).None? then Config.DEFAULT_MODELS
    else Suiting(Config.DEFAULT_MODELS, UseCaseOf(ToLower(useCase.value)))
  }

  /** The recommendations never name a model outside the supported list. */
  lemma RecommendationsAreSupported(useCase: Option<string>)
    ensures forall m :: m in Recommendations(useCase) ==> m in Config.DEFAULT_MODELS
    ensures |Recommendations(useCase)| <= |Config.DEFAULT_MODELS|
  {
  }

  /** Two spellings of a use case differing only in case get the same
      recommendations. */
  lemma RecommendationsIgnoreCase(u: string, v: string)
    requires ToLower(u) == ToLower(v)
    ensures Recommendations(Some(u)) == Recommendations(Some(v))
  {
  }

  // ---------------------------------------------------------------------------
  // Statistics

  datatype Distribution = Distribution(positive: int, neutral: int, negative: int)

  datatype Statistics = Statistics(
    total: nat,
    positive: nat,
    neutral: nat,
    negative: nat,
    averageConfidence: int,
    distribution: Distribution)

  function SumConfidence(results: seq<SentimentResult>): int
  {
    if results == [] then 0 else results[0].confidence + SumConfidence(results[1..])
  }

  /** `Math.round(x / total)` computed exactly: the integer nearest the
      quotient, halves rounded up. */
  function RoundedRatio(x: int, total: nat): (r: int)
    requires total > 0
    ensures 2 * total * r <= 2 * x + total < 2 * total * r + 2 * total
  {
    var d := 2 * total;
    var n := 2 * x + total;
    assert n == d * (n / d) + n % d;
    n / d
  }

  /** The exact integer rounding agrees with `Math.round` applied to the
      exact quotient. */
  lemma RoundedRatioIsRound(x: int, total: nat)
    requires total > 0
    ensures RoundedRatio(x, total) == Round(x as real / total as real)
  {
    var r := RoundedRatio(x, total);
    var t := total as real;
    var q := x as real / t;
    assert q * t == x as real;
    assert (2 * total * r) as real <= (2 * x + total) as real < (2 * total * r + 2 * total) as real;
    SignOfProduct(r as real - 1.0 / 2.0 - q, t);
    SignOfProduct(q - r as real - 1.0 / 2.0, t);
    UniqueRound(q, r, Round(q));
  }

  lemma SignOfProduct(a: real, t: real)
    requires t > 0.0
    ensures a * t <= 0.0 ==> a <= 0.0
    ensures a * t < 0.0 ==> a < 0.0
  {
  }

  lemma UniqueRound(q: real, a: int, b: int)
    requires a as real - 1.0 / 2.0 <= q < a as real + 1.0 / 2.0
    requires b as real - 1.0 / 2.0 <= q < b as real + 1.0 / 2.0
    ensures a == b
  {
  }

  /** `calculateStatistics`. */
  function CalculateStatistics(results: seq<SentimentResult>): (st: Statistics)
    ensures results == [] ==> st == Statistics(0, 0, 0, 0, 0, Distribution(0, 0, 0))
    ensures st.total == |results|
    ensures st.positive == CountSentiment(results, POSITIVE)
    ensures st.neutral == CountSentiment(results, NEUTRAL)
    ensures st.negative == CountSentiment(results, NEGATIVE)
    ensures results != [] ==>
      var t, avg := |results|, st.averageConfidence;
      2 * t * avg <= 2 * SumConfidence(results) + t < 2 * t * avg + 2 * t
    ensures results != [] ==>
      var t, d := |results|, st.distribution;
      && 2 * t * d.positive <= 200 * st.positive + t < 2 * t * d.positive + 2 * t
      && 2 * t * d.neutral <= 200 * st.neutral + t < 2 * t * d.neutral + 2 * t
      && 2 * t * d.negative <= 200 * st.negative + t < 2 * t * d.negative + 2 * t
  {
    if results == [] then Statistics(0, 0, 0, 0, 0, Distribution(0, 0, 0))
    else
      var total := |results|;
      var positive := CountSentiment(results, POSITIVE);
      var neutral := CountSentiment(results, NEUTRAL);
      var negative := CountSentiment(results, NEGATIVE);
      Statistics(total, positive, neutral, negative,
                 RoundedRatio(SumConfidence(results), total),
                 Distribution(RoundedRatio(100 * positive, total),
                              RoundedRatio(100 * neutral, total),
                              RoundedRatio(100 * negative, total)))
  }

  /** For results drawn from the three sentiments, the counts add up to the
      total. */
  lemma {:induction false} CountsSumToTotal(results: seq<SentimentResult>)
    requires forall i :: 0 <= i < |results| ==> results[i].sentiment in {POSITIVE, NEUTRAL, NEGATIVE}
    ensures
      var st := CalculateStatistics(results);
      st.positive + st.neutral + st.negative == st.total
  {
    if results != [] {
      CountsSumToTotal(results[1..]);
      assert CalculateStatistics(results[1..]).total == |results| - 1;
    }
  }

  lemma {:induction false} SumConfidenceBounds(results: seq<SentimentResult>, lo: int, hi: int)
    requires forall i :: 0 <= i < |results| ==> lo <= results[i].confidence <= hi
    ensures lo * |results| <= SumConfidence(results) <= hi * |results|
  {
    if results != [] {
      SumConfidenceBounds(results[1..], lo, hi);
    }
  }

  /** The rounded mean of confidences between `lo` and `hi` lies between
      them too; in particular percentages average to a percentage. */
  lemma AverageWithinBounds(results: seq<SentimentResult>, lo: int, hi: int)
    requires results != []
    requires forall i :: 0 <= i < |results| ==> lo <= results[i].confidence <= hi
    ensures lo <= CalculateStatistics(results).averageConfidence <= hi
  {
    SumConfidenceBounds(results, lo, hi);
    var st := CalculateStatistics(results);
    RoundedRatioBounds(SumConfidence(results), |results|, lo, hi);
  }

  lemma RoundedRatioBounds(x: int, total: nat, lo: int, hi: int)
    requires total > 0 && lo * total <= x <= hi * total
    ensures lo <= RoundedRatio(x, total) <= hi
  {
    var r := RoundedRatio(x, total);
    if r < lo {
      MulMonotone(r + 1, lo, 2 * total);
    }
    if r > hi {
      MulMonotone(hi + 1, r, 2 * total);
    }
  }

  lemma MulMonotone(a: int, b: int, t: nat)
    requires a <= b
    ensures t * a <= t * b
  {
  }

  /** Each share is `Math.round(count / total * 100)` of the exact quotient. */
  lemma DistributionIsRounded(results: seq<SentimentResult>)
    requires results != []
    ensures
      var st, t := CalculateStatistics(results), |results| as real;
      && st.distribution.positive == Round((100 * st.positive) as real / t)
      && st.distribution.neutral == Round((100 * st.neutral) as real / t)
      && st.distribution.negative == Round((100 * st.negative) as real / t)
  {
    var st := CalculateStatistics(results);
    RoundedRatioIsRound(100 * st.positive, |results|);
    RoundedRatioIsRound(100 * st.neutral, |results|);
    RoundedRatioIsRound(100 * st.negative, |results|);
  }

  /** Each share of the distribution is a percentage, and a sentiment that
      all or none of the results have gets 100 or 0. */
  lemma DistributionIsPercentage(results: seq<SentimentResult>)
    requires results != []
    ensures
      var st := CalculateStatistics(results);
      && 0 <= st.distribution.positive <= 100
      && 0 <= st.distribution.neutral <= 100
      && 0 <= st.distribution.negative <= 100
      && (st.positive == st.total ==> st.distribution.positive == 100)
      && (st.positive == 0 ==> st.distribution.positive == 0)
  {
    var st := CalculateStatistics(results);
    var t := |results|;
    RoundedRatioBounds(100 * st.positive, t, 0, 100);
    RoundedRatioBounds(100 * st.neutral, t, 0, 100);
    RoundedRatioBounds(100 * st.negative, t, 0, 100);
    if st.positive == t {
      RoundedRatioBounds(100 * st.positive, t, 100, 100);
    }
    if st.positive == 0 {
      RoundedRatioBounds(100 * st.positive, t, 0, 0);
    }
  }
}
