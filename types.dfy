/** The records the application passes between its layers. */
module Types {
  import opened Base

  /** A Hugging Face text-classification model the application knows about. */
  datatype TransformerModel = TransformerModel(
    id: string,
    name: string,
    modelId: string,
    description: string,
    task: string,
    labels: seq<string>)

  /** An agent as enumerated from the contract. `price` is in wei (the
      application formats it as ether for display). */
  datatype Agent = Agent(
    id: nat,
    owner: string,
    modelUrl: string,
    price: nat,
    active: bool,
    transformerModel: Option<TransformerModel>,
    customModelId: Option<string>)

  /** A sentiment verdict for one request. `sentiment` is a string because the
      contract's event and the analysis service both deliver free text; the
      application expects one of "positive", "neutral" and "negative". */
  datatype SentimentResult = SentimentResult(
    requestId: int,
    sentiment: string,
    confidence: int,
    timestamp: int)

  /** One ranked label of a classifier's answer. */
  datatype Prediction = Prediction(labelText: string, score: real)

  /** What an inference call returns: the ranked predictions, the model used
      and, on failure, the error message (with no predictions). */
  datatype TransformerAnalysisResult = TransformerAnalysisResult(
    predictions: seq<Prediction>,
    modelUsed: string,
    error: Option<string>)

  const POSITIVE: string := "positive"
  const NEUTRAL: string := "neutral"
  const NEGATIVE: string := "negative"

  /** Number of results whose sentiment is `sentiment` (`filter(...).length`). */
  function CountSentiment(results: seq<SentimentResult>, sentiment: string): (n: nat)
    ensures n <= |results|
    ensures n == |results| <==> forall i :: 0 <= i < |results| ==> results[i].sentiment == sentiment
    ensures n == 0 <==> forall i :: 0 <= i < |results| ==> results[i].sentiment != sentiment
  {
    if results == [] then 0
    else
      var rest := CountSentiment(results[1..], sentiment);
      assert forall i :: 1 <= i < |results| ==> results[i] == results[1..][i - 1];
      (if results[0].sentiment == sentiment then 1 else 0) + rest
  }

  /** Counting distributes over concatenation. */
  lemma {:induction false} CountSentimentAppend(a: seq<SentimentResult>, b: seq<SentimentResult>, sentiment: string)
    ensures CountSentiment(a + b, sentiment) == CountSentiment(a, sentiment) + CountSentiment(b, sentiment)
  {
    if a == [] {
      assert a + b == b;
    } else {
      assert (a + b)[1..] == a[1..] + b;
      CountSentimentAppend(a[1..], b, sentiment);
    }
  }
}
