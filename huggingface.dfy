/** The Hugging Face inference client: the request it sends, the way it reads
    the answer (status errors, response shapes, label normalisation and
    ranking), the conversion of a ranking into a sentiment verdict, and the
    model look-ups. */
module HuggingFace {
  import opened Base
  import opened Text
  import opened Types
  import Config
  import Ranking

  // ---------------------------------------------------------------------------
  // Requests

  /** An inference request: the HTTP method, the model's URL, the headers and
      the JSON body, which holds the input text and the `return_all_scores`
      parameter. */
  datatype HttpRequest = HttpRequest(
    httpMethod: string,
    url: string,
    headers: seq<(string, string)>,
    inputs: string,
    returnAllScores: bool)

  /** The headers sent with every request: an `Authorization` bearer header
      exactly when a non-empty key is set. */
  function Headers(apiKey: Option<string>): (h: seq<(string, string)>)
    ensures |h| >= 1 && h[0] == ("Content-Type", "application/json")
    ensures (exists i :: 0 <= i < |h| && h[i].0 == "Authorization") <==> Truthy(apiKey).Some?
    ensures Truthy(apiKey).Some? ==> h == [h[0], ("Authorization", "Bearer " + apiKey.value)]
    ensures Truthy(apiKey).None? ==> h == [h[0]]
  {
    var h := [("Content-Type", "application/json")] +
      (if Truthy(apiKey).Some? then [("Authorization", "Bearer " + apiKey.value)] else []);
    assert |"Content-Type"| != |"Authorization"|;
    assert Truthy(apiKey).Some? ==> h[1].0 == "Authorization";
    h
  }

  /** The request `analyzeSentiment` sends: a POST to the model's path under
      the inference base URL, with the text as `inputs` and scores asked for
      every label. */
  function Request(apiKey: Option<string>, text: string, modelId: string): (q: HttpRequest)
    ensures q.httpMethod == "POST"
    ensures var n := |Config.API_BASE_URL|;
      && |q.url| == n + 1 + |modelId|
      && q.url[..n] == Config.API_BASE_URL && q.url[n] == '/' && q.url[n + 1..] == modelId
    ensures q.headers == Headers(apiKey)
    ensures q.inputs == text && q.returnAllScores
  {
    var url := Config.API_BASE_URL + "/" + modelId;
    assert url[|Config.API_BASE_URL| + 1..] == modelId;
    HttpRequest("POST", url, Headers(apiKey), text, true)
  }

  // ---------------------------------------------------------------------------
  // Responses

  /** The body of a successful response, as parsed JSON. */
  datatype ResponseBody =
    | PredictionRows(rows: seq<seq<Prediction>>)   // an array whose first element is an array
    | PredictionList(list: seq<Prediction>)        // an array of prediction objects
    | PredictionObject(labelField: Option<string>, scoreField: Option<real>)  // one object
    | NullJson(typeError: string)                  // `null`: reading `result.label` throws this TypeError's message
    | OtherJson                                    // any other JSON value
    | Malformed(parseError: string)                // not JSON: the parser's message

  /** The body of a failed response: its `error` and `message` fields, both
      absent when the body is not JSON; or JSON `null`, on which reading
      `errorData.error` throws a TypeError with the message given. */
  datatype ErrorBody =
    | ErrorBody(error: Option<string>, message: Option<string>)
    | NullErrorBody(typeError: string)

  datatype HttpResponse = HttpResponse(status: nat, statusText: string, body: ResponseBody, errorBody: ErrorBody)

  predicate IsOk(status: nat)
  {
    200 <= status <= 299
  }

  const UNAUTHORIZED: string :=
    "Unauthorized: Hugging Face API key required. Please set VITE_HUGGINGFACE_API_KEY in your environment variables or use the API key setting in the demo."
  const RATE_LIMITED: string :=
    "Rate limit exceeded. Please wait a moment before trying again or add a Hugging Face API key for higher limits."
  const MODEL_LOADING: string :=
    "Model is currently loading. Please wait a few seconds and try again."
  const UNEXPECTED_FORMAT: string := "Unexpected response format from Hugging Face API"
  const ANALYSIS_FAILED: string := "Analysis failed"
  const TEXT_TOO_LONG: string := "Text too long. Maximum 10000 characters allowed."

  /** The error for a non-OK status: fixed messages for 401, 429 and 503;
      otherwise the body's `error`, then its `message`, then the status line. */
  function StatusError(status: nat, statusText: string, body: ErrorBody): (m: string)
    ensures status == 401 ==> m == UNAUTHORIZED
    ensures status == 429 ==> m == RATE_LIMITED
    ensures status == 503 ==> m == MODEL_LOADING
    ensures status !in {401, 429, 503} && body.NullErrorBody? ==> m == body.typeError
    ensures status !in {401, 429, 503} && body.ErrorBody? ==>
      && (Truthy(body.error).Some? ==> m == body.error.value)
      && (Truthy(body.error).None? && Truthy(body.message).Some? ==> m == body.message.value)
      && (Truthy(body.error).None? && Truthy(body.message).None? ==>
            m == "API request failed with status " + NatToDecimal(status) + ": " + statusText)
  {
    if status == 401 then UNAUTHORIZED
    else if status == 429 then RATE_LIMITED
    else if status == 503 then MODEL_LOADING
    else
      match body
      case NullErrorBody(typeError) => typeError
      case ErrorBody(error, message) =>
        OrElse(error, OrElse(message, "API request failed with status " + NatToDecimal(status) + ": " + statusText))
  }

  /** The predictions a successful body carries: the first row of a nested
      array, a non-empty flat array as it is, or a single object with a
      non-empty label and a score; anything else is an error. */
  function ExtractPredictions(body: ResponseBody): (r: Result<seq<Prediction>, string>)
    ensures body.PredictionRows? && |body.rows| > 0 ==> r == Success(body.rows[0])
    ensures body.PredictionList? && |body.list| > 0 ==> r == Success(body.list)
    ensures body.PredictionObject? && Truthy(body.labelField).Some? && body.scoreField.Some? ==>
      r == Success([Prediction(body.labelField.value, body.scoreField.value)])
    ensures body.Malformed? ==> r == Failure(body.parseError)
    ensures body.NullJson? ==> r == Failure(body.typeError)
    ensures r.Failure? && !body.Malformed? && !body.NullJson? ==> r == Failure(UNEXPECTED_FORMAT)
    ensures r.Failure? <==>
      || body.OtherJson? || body.Malformed? || body.NullJson?
      || (body.PredictionRows? && |body.rows| == 0)
      || (body.PredictionList? && |body.list| == 0)
      || (body.PredictionObject? && (Truthy(body.labelField).None? || body.scoreField.None?))
  {
    match body
    case PredictionRows(rows) => if |rows| > 0 then Success(rows[0]) else Failure(UNEXPECTED_FORMAT)
    case PredictionList(list) => if |list| > 0 then Success(list) else Failure(UNEXPECTED_FORMAT)
    case PredictionObject(l, s) =>
      if Truthy(l).Some? && s.Some? then Success([Prediction(l.value, s.value)]) else Failure(UNEXPECTED_FORMAT)
    case NullJson(typeError) => Failure(typeError)
    case OtherJson => Failure(UNEXPECTED_FORMAT)
    case Malformed(m) => Failure(m)
  }

  /** Labels lower-cased, scores kept, order kept. */
  function Normalise(preds: seq<Prediction>): (r: seq<Prediction>)
    ensures |r| == |preds|
    ensures forall i :: 0 <= i < |r| ==>
      r[i].labelText == ToLower(preds[i].labelText) && r[i].score == preds[i].score
  {
    seq(|preds|, i requires 0 <= i < |preds| => Prediction(ToLower(preds[i].labelText), preds[i].score))
  }

  /** `analyzeSentiment`: the result for `text` sent to `modelId`, where
      `response` is what the request, if sent, brings back (a rejected fetch
      or body read is a `Failure`). It never throws: every failure becomes
      a result with an error and no predictions. */
  function Analysis(text: string, modelId: string, response: Result<HttpResponse, Thrown>): TransformerAnalysisResult
  {
    if |text| > Config.MAX_TEXT_LENGTH then TransformerAnalysisResult([], modelId, Some(TEXT_TOO_LONG))
    else
      match response
      case Failure(t) => TransformerAnalysisResult([], modelId, Some(MessageOr(t, ANALYSIS_FAILED)))
      case Success(resp) =>
        if !IsOk(resp.status) then
          TransformerAnalysisResult([], modelId, Some(StatusError(resp.status, resp.statusText, resp.errorBody)))
        else
          match ExtractPredictions(resp.body)
          case Failure(m) => TransformerAnalysisResult([], modelId, Some(m))
          case Success(preds) =>
            TransformerAnalysisResult(Ranking.SortByScore(Normalise(preds)), modelId, None)
  }

  /** Every result names the model asked for; a failed one has an error and
      no predictions, and an over-long text fails without a request. */
  lemma AnalysisFailureShape(text: string, modelId: string, response: Result<HttpResponse, Thrown>)
    ensures Analysis(text, modelId, response).modelUsed == modelId
    ensures Analysis(text, modelId, response).error.Some? ==> Analysis(text, modelId, response).predictions == []
    ensures |text| > Config.MAX_TEXT_LENGTH ==>
      Analysis(text, modelId, response) == TransformerAnalysisResult([], modelId, Some(TEXT_TOO_LONG))
    ensures |text| <= Config.MAX_TEXT_LENGTH && response.Success? && !IsOk(response.value.status) ==>
      Analysis(text, modelId, response).error ==
        Some(StatusError(response.value.status, response.value.statusText, response.value.errorBody))
  {
  }

  /** A successful result ranks the normalised predictions of the body: the
      same multiset, by non-increasing score, ties in the order received. */
  lemma AnalysisSuccessRanks(text: string, modelId: string, response: Result<HttpResponse, Thrown>, v: real)
    requires Analysis(text, modelId, response).error.None?
    ensures response.Success? && IsOk(response.value.status)
    ensures ExtractPredictions(response.value.body).Success?
    ensures
      var preds := Normalise(ExtractPredictions(response.value.body).value);
      var ranked := Analysis(text, modelId, response).predictions;
      && Ranking.SortedDesc(ranked)
      && multiset(ranked) == multiset(preds)
      && Ranking.WithScore(ranked, v) == Ranking.WithScore(preds, v)
  {
    var preds := Normalise(ExtractPredictions(response.value.body).value);
    Ranking.SortByScoreSortsAndPermutes(preds);
    Ranking.SortByScoreStable(preds, v);
  }

  // ---------------------------------------------------------------------------
  // The sentiment verdict

  datatype Verdict = Verdict(sentiment: string, confidence: int)

  /** `Math.round`: the nearest integer, halves rounded up. */
  function Round(x: real): (r: int)
    ensures r as real - 1.0 / 2.0 <= x < r as real + 1.0 / 2.0
  {
    (x + 1.0 / 2.0).Floor
  }

  predicate IsPositiveLabel(l: string)
  {
    || Contains(l, "positive") || Contains(l, "pos")
    || l == "joy" || l == "love" || l == "optimism"
    || Contains(l, "5 stars") || Contains(l, "4 stars")
  }

  predicate IsNegativeLabel(l: string)
  {
    || Contains(l, "negative") || Contains(l, "neg")
    || l == "anger" || l == "sadness" || l == "pessimism"
    || Contains(l, "1 star") || Contains(l, "2 stars")
  }

  /** The sentiment a lower-cased l denotes: the positive rules win over
      the negative ones, and a l matching neither is neutral. */
  function LabelSentiment(l: string): (r: string)
    ensures r == POSITIVE <==> IsPositiveLabel(l)
    ensures r == NEGATIVE <==> !IsPositiveLabel(l) && IsNegativeLabel(l)
    ensures r == NEUTRAL <==> !IsPositiveLabel(l) && !IsNegativeLabel(l)
  {
    if IsPositiveLabel(l) then POSITIVE
    else if IsNegativeLabel(l) then NEGATIVE
    else NEUTRAL
  }

  /** `convertToSentiment`: the first prediction's label decides, its score
      as a rounded percentage is the confidence; no prediction is neutral
      with confidence 0. */
  function ConvertToSentiment(predictions: seq<Prediction>): (r: Verdict)
    ensures r.sentiment in {POSITIVE, NEUTRAL, NEGATIVE}
    ensures predictions == [] ==> r == Verdict(NEUTRAL, 0)
    ensures predictions != [] ==>
      && r.sentiment == LabelSentiment(ToLower(predictions[0].labelText))
      && r.confidence == Round(predictions[0].score * 100.0)
  {
    if predictions == [] then Verdict(NEUTRAL, 0)
    else
      var top := predictions[0];
      Verdict(LabelSentiment(ToLower(top.labelText)), Round(top.score * 100.0))
  }

  /** Only the first prediction matters. */
  lemma ConvertUsesFirstOnly(p: seq<Prediction>, q: seq<Prediction>)
    requires p != [] && q != [] && p[0] == q[0]
    ensures ConvertToSentiment(p) == ConvertToSentiment(q)
  {
  }

  /** Upper and lower case do not matter. */
  lemma ConvertIgnoresCase(p: Prediction, q: Prediction)
    requires ToLower(p.labelText) == ToLower(q.labelText) && p.score == q.score
    ensures ConvertToSentiment([p]) == ConvertToSentiment([q])
  {
  }

  /** Applied to a successful analysis, the verdict comes from a
      highest-scoring prediction. */
  lemma VerdictFromTopScore(text: string, modelId: string, response: Result<HttpResponse, Thrown>)
    requires Analysis(text, modelId, response).error.None?
    requires Analysis(text, modelId, response).predictions != []
    ensures
      var ranked := Analysis(text, modelId, response).predictions;
      && (forall i :: 0 <= i < |ranked| ==> ranked[0].score >= ranked[i].score)
      && ConvertToSentiment(ranked).confidence == Round(ranked[0].score * 100.0)
  {
    AnalysisSuccessRanks(text, modelId, response, 0.0);
  }

  /** `t` does not occur in `s` when one of its characters is not in `s`. */
  lemma MissingChar(s: string, t: string, j: nat)
    requires j < |t| && t[j] !in s
    ensures !Contains(s, t)
  {
    forall i: nat
      ensures !OccursAt(s, t, i)
    {
      if i + |t| <= |s| {
        assert s[i..i + |t|][j] == s[i + j];
        assert s[i + j] in s;
      }
    }
    ContainsIff(s, t);
  }

  /** No positive rule matches `s` when it lacks `p`, `4` and `5`. */
  lemma NoPositiveMatch(s: string)
    requires 'p' !in s && '4' !in s && '5' !in s
    requires s != "joy" && s != "love" && s != "optimism"
    ensures !IsPositiveLabel(s)
  {
    assert !Contains(s, "positive") by { MissingChar(s, "positive", 0); }
    assert !Contains(s, "pos") by { MissingChar(s, "pos", 0); }
    assert !Contains(s, "5 stars") by { MissingChar(s, "5 stars", 0); }
    assert !Contains(s, "4 stars") by { MissingChar(s, "4 stars", 0); }
  }

  /** No positive rule matches `s` when it lacks `o`, `4` and `5`. */
  lemma NoPositiveMatchAt1(s: string)
    requires 'o' !in s && '4' !in s && '5' !in s
    requires s != "joy" && s != "love" && s != "optimism"
    ensures !IsPositiveLabel(s)
  {
    assert !Contains(s, "positive") by { MissingChar(s, "positive", 1); }
    assert !Contains(s, "pos") by { MissingChar(s, "pos", 1); }
    assert !Contains(s, "5 stars") by { MissingChar(s, "5 stars", 0); }
    assert !Contains(s, "4 stars") by { MissingChar(s, "4 stars", 0); }
  }

  /** No negative rule matches `s` when it lacks `g`, `1` and `2`. */
  lemma NoNegativeMatch(s: string)
    requires 'g' !in s && '1' !in s && '2' !in s
    requires s != "anger" && s != "sadness" && s != "pessimism"
    ensures !IsNegativeLabel(s)
  {
    assert !Contains(s, "negative") by { MissingChar(s, "negative", 2); }
    assert !Contains(s, "neg") by { MissingChar(s, "neg", 2); }
    assert !Contains(s, "1 star") by { MissingChar(s, "1 star", 0); }
    assert !Contains(s, "2 stars") by { MissingChar(s, "2 stars", 0); }
  }

  /** The default models' labels that read as positive. */
  lemma PositiveLabelsClassify(l: string)
    requires l in ["positive", "4 stars", "5 stars", "joy", "love", "optimism"]
    ensures LabelSentiment(l) == POSITIVE
  {
    if l == "positive" || l == "4 stars" || l == "5 stars" {
    }
  }

  /** The default models' labels that read as negative. */
  lemma NegativeLabelsClassify(l: string)
    requires l in ["negative", "1 star", "2 stars", "anger", "sadness", "pessimism"]
    ensures LabelSentiment(l) == NEGATIVE
  {
    if l == "negative" {
      NoPositiveMatch("negative");
    } else if l == "1 star" {
      NoPositiveMatch("1 star");
    } else if l == "2 stars" {
      NoPositiveMatch("2 stars");
    } else if l == "anger" {
      NoPositiveMatch("anger");
    } else if l == "sadness" {
      NoPositiveMatch("sadness");
    } else {
      NoPositiveMatchAt1("pessimism");
    }
  }

  /** The default models' labels that read as neutral. */
  lemma NeutralLabelsClassify(l: string)
    requires l in {"neutral", "3 stars", "fear", "surprise", "trust"}
    ensures LabelSentiment(l) == NEUTRAL
  {
    if l == "surprise" {
      SurpriseIsNeutral(l);
    } else if l == "neutral" {
      NoRuleMatches(l);
    } else if l == "3 stars" {
      NoRuleMatches(l);
    } else if l == "fear" {
      NoRuleMatches(l);
    } else {
      NoRuleMatches(l);
    }
  }

  /** "surprise" contains a `p` but not an `o` after it. */
  lemma SurpriseIsNeutral(l: string)
    requires l == "surprise"
    ensures !IsPositiveLabel(l) && !IsNegativeLabel(l)
  {
    NoPositiveMatchAt1(l);
    NoNegativeMatch(l);
  }

  /** Neither a positive nor a negative rule matches `s`. */
  lemma NoRuleMatches(s: string)
    requires 'p' !in s && '4' !in s && '5' !in s && 'g' !in s && '1' !in s && '2' !in s
    requires s != "joy" && s != "love" && s != "optimism"
    requires s != "anger" && s != "sadness" && s != "pessimism"
    ensures !IsPositiveLabel(s) && !IsNegativeLabel(s)
  {
    NoPositiveMatch(s);
    NoNegativeMatch(s);
  }

  // ---------------------------------------------------------------------------
  // Models

  /** The first model of `models` with the given id. */
  function FindModel(models: seq<TransformerModel>, id: string): (r: Option<TransformerModel>)
    ensures r.Some? ==> r.value in models && r.value.id == id
    ensures r.None? <==> forall i :: 0 <= i < |models| ==> models[i].id != id
    ensures r.Some? ==>
      exists k :: 0 <= k < |models| && models[k] == r.value && (forall i :: 0 <= i < k ==> models[i].id != id)
  {
    if models == [] then None
    else if models[0].id == id then Some(models[0])
    else
      var r := FindModel(models[1..], id);
      assert forall i :: 1 <= i < |models| ==> models[i] == models[1..][i - 1];
      if r.Some? then
        var k :| 0 <= k < |models[1..]| && models[1..][k] == r.value &&
          forall i :: 0 <= i < k ==> models[1..][i].id != id;
        assert models[k + 1] == r.value;
        r
      else r
  }

  /** `findDefaultModel` */
  function FindDefaultModel(id: string): (r: Option<TransformerModel>)
    ensures r.Some? ==> r.value in Config.DEFAULT_MODELS && r.value.id == id
    ensures r.None? <==> forall m :: m in Config.DEFAULT_MODELS ==> m.id != id
  {
    FindModel(Config.DEFAULT_MODELS, id)
  }

  const CUSTOM_PREFIX: string := "custom-"

  /** `createCustomModel` at time `now` (milliseconds). */
  function CreateCustomModel(modelId: string, name: Option<string>, description: Option<string>, now: nat):
    (m: TransformerModel)
    ensures m.id == CUSTOM_PREFIX + NatToDecimal(now)
    ensures m.modelId == modelId
    ensures m.name == OrElse(name, modelId)
    ensures m.description == OrElse(description, "Custom model: " + modelId)
    ensures m.task == "text-classification"
    ensures m.labels == [NEGATIVE, NEUTRAL, POSITIVE]
  {
    TransformerModel(CUSTOM_PREFIX + NatToDecimal(now), OrElse(name, modelId), modelId,
                     OrElse(description, "Custom model: " + modelId), "text-classification",
                     [NEGATIVE, NEUTRAL, POSITIVE])
  }

  /** A custom model's id never names a default model, and its creation
      time can be read back from it. */
  lemma CustomModelIdentity(modelId: string, name: Option<string>, description: Option<string>, now: nat)
    ensures FindDefaultModel(CreateCustomModel(modelId, name, description, now).id).None?
    ensures
      var id := CreateCustomModel(modelId, name, description, now).id;
      CUSTOM_PREFIX <= id && DecimalValue(id[|CUSTOM_PREFIX|..]) == now
  {
    var id := CreateCustomModel(modelId, name, description, now).id;
    assert id[..|CUSTOM_PREFIX|] == CUSTOM_PREFIX;
    assert id[|CUSTOM_PREFIX|..] == NatToDecimal(now);
    DecimalRoundTrip(now);
    forall m | m in Config.DEFAULT_MODELS
      ensures m.id != id
    {
      assert m.id[0] != id[0];
    }
  }

  // ---------------------------------------------------------------------------
  // The service object

  class HuggingFaceService {
    var apiKey: Option<string>

    /** The key given, else the configured one; empty keys count as absent. */
    constructor (apiKey: Option<string>, env: Config.Env)
      ensures Truthy(apiKey).Some? ==> this.apiKey == apiKey
      ensures Truthy(apiKey).None? ==> this.apiKey == Truthy(env.huggingFaceApiKey)
    {
      this.apiKey := if Truthy(apiKey).Some? then apiKey else Truthy(env.huggingFaceApiKey);
    }

    /** `setApiKey`: any string, the empty one included, which then sends no
        `Authorization` header. */
    method SetApiKey(key: string)
      modifies this
      ensures apiKey == Some(key)
    {
      apiKey := Some(key);
    }

    /** `analyzeSentiment`. Returns the request sent, if any, and the
        result, whose ranking is built in an array sorted in place. */
    method AnalyzeSentiment(text: string, modelId: string, response: Result<HttpResponse, Thrown>)
      returns (sent: Option<HttpRequest>, r: TransformerAnalysisResult)
      ensures |text| > Config.MAX_TEXT_LENGTH ==> sent.None?
      ensures |text| <= Config.MAX_TEXT_LENGTH ==> sent == Some(Request(apiKey, text, modelId))
      ensures r == Analysis(text, modelId, response)
    {
      if |text| > Config.MAX_TEXT_LENGTH {
        return None, TransformerAnalysisResult([], modelId, Some(TEXT_TOO_LONG));
      }
      sent := Some(Request(apiKey, text, modelId));
      if response.Failure? {
        return sent, TransformerAnalysisResult([], modelId, Some(MessageOr(response.error, ANALYSIS_FAILED)));
      }
      var resp := response.value;
      if !IsOk(resp.status) {
        return sent, TransformerAnalysisResult([], modelId, Some(StatusError(resp.status, resp.statusText, resp.errorBody)));
      }
      var extracted := ExtractPredictions(resp.body);
      if extracted.Failure? {
        return sent, TransformerAnalysisResult([], modelId, Some(extracted.error));
      }
      var normalised := Normalise(extracted.value);
      var predictions := new Prediction[|normalised|](i requires 0 <= i < |normalised| => normalised[i]);
      assert predictions[..] == normalised;
      Ranking.SortInPlace(predictions);
      r := TransformerAnalysisResult(predictions[..], modelId, None);
    }
  }

  /** Setting the empty key sends requests without authorisation. */
  lemma EmptyKeyIsAnonymous(text: string, modelId: string)
    ensures Request(Some(""), text, modelId).headers == [("Content-Type", "application/json")]
  {
  }
}
