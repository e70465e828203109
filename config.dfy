/** Application configuration: the network table, the inference settings and
    the validators and formatters used across the application. */
module Config {
  import opened Base
  import opened Text
  import opened Types

  /** The build-time environment variables the configuration reads. */
  datatype Env = Env(
    chainId: Option<string>,           // VITE_CHAIN_ID
    sapphireRpcUrl: Option<string>,    // VITE_SAPPHIRE_RPC_URL
    contractAddress: Option<string>,   // VITE_CONTRACT_ADDRESS
    huggingFaceApiKey: Option<string>) // VITE_HUGGINGFACE_API_KEY

  // ---------------------------------------------------------------------------
  // Networks

  datatype NativeCurrency = NativeCurrency(name: string, symbol: string, decimals: nat)

  datatype NetworkConfig = NetworkConfig(
    chainId: string,
    chainName: string,
    rpcUrl: string,
    blockExplorerUrl: string,
    nativeCurrency: NativeCurrency)

  /** The keys of the network table; it has a single entry. */
  datatype NetworkName = SapphireTestnet

  const DEFAULT_CHAIN_ID: string := "0x5aff"
  const DEFAULT_SAPPHIRE_RPC_URL: string := "https://testnet.sapphire.oasis.dev"

  /** The Sapphire testnet chain id the deployment configuration uses. */
  const SAPPHIRE_TESTNET_CHAIN_ID: nat := 23295

  /** The network table entry `name`, with the environment's overrides. */
  function GetNetworkConfig(env: Env, name: NetworkName := SapphireTestnet): (c: NetworkConfig)
    ensures c.chainName == "Sapphire Testnet"
    ensures env.chainId.None? || env.chainId == Some("") ==> c.chainId == DEFAULT_CHAIN_ID
    ensures env.chainId.Some? && env.chainId.value != "" ==> c.chainId == env.chainId.value
    ensures c.nativeCurrency.decimals == 18
  {
    match name
    case SapphireTestnet =>
      NetworkConfig(
        OrElse(env.chainId, DEFAULT_CHAIN_ID),
        "Sapphire Testnet",
        OrElse(env.sapphireRpcUrl, DEFAULT_SAPPHIRE_RPC_URL),
        "https://testnet.explorer.sapphire.oasis.dev/",
        NativeCurrency("TEST", "TEST", 18))
  }

  /** The network the application targets: the default table entry. */
  function GetCurrentNetworkConfig(env: Env): (c: NetworkConfig)
    ensures c == GetNetworkConfig(env)
    ensures c == GetNetworkConfig(env, SapphireTestnet)
  {
    GetNetworkConfig(env, SapphireTestnet)
  }

  /** The digits of the default chain id denote 23295. */
  lemma DefaultChainDigitsValue()
    ensures HexValue("5aff") == SAPPHIRE_TESTNET_CHAIN_ID
  {
    assert HexValue("5") == 5 by { assert "5"[..0] == ""; }
    assert HexValue("5a") == 90 by { assert "5a"[..1] == "5"; }
    assert HexValue("5af") == 1455 by { assert "5af"[..2] == "5a"; }
    assert "5aff"[..3] == "5af";
  }

  /** The default chain id, read as hexadecimal, is the testnet's chain id. */
  lemma DefaultChainIdIsTestnet()
    ensures ParseIntHex(DEFAULT_CHAIN_ID) == Finite(SAPPHIRE_TESTNET_CHAIN_ID)
  {
    assert DEFAULT_CHAIN_ID == "0x" + "5aff";
    ParseIntHexOfPrefixed("5aff");
    DefaultChainDigitsValue();
  }

  /** Without an override the configured network is the testnet. */
  lemma DefaultNetworkIsTestnet(env: Env)
    requires Truthy(env.chainId).None?
    ensures ParseIntHex(GetCurrentNetworkConfig(env).chainId) == Finite(SAPPHIRE_TESTNET_CHAIN_ID)
  {
    DefaultChainIdIsTestnet();
  }

  // ---------------------------------------------------------------------------
  // Inference settings

  const API_BASE_URL: string := "https://api-inference.huggingface.co/models"
  const MAX_TEXT_LENGTH: nat := 10000

  const DEFAULT_MODELS: seq<TransformerModel> := [
    TransformerModel("simple-sentiment", "Simple Sentiment (Free)",
      "distilbert-base-uncased-finetuned-sst-2-english",
      "Basic sentiment analysis, no authentication required",
      "text-classification", ["negative", "positive"]),
    TransformerModel("general-sentiment", "General Sentiment Analysis",
      "cardiffnlp/twitter-roberta-base-sentiment-latest",
      "General purpose sentiment analysis trained on Twitter data",
      "text-classification", ["negative", "neutral", "positive"]),
    TransformerModel("financial-sentiment", "Financial News Sentiment",
      "mrm8488/distilroberta-finetuned-financial-news-sentiment-analysis",
      "Optimized for financial news and market sentiment",
      "text-classification", ["negative", "neutral", "positive"]),
    TransformerModel("emotion-analysis", "Emotion Detection",
      "j-hartmann/emotion-english-distilroberta-base",
      "Detects emotions: joy, optimism, anger, sadness",
      "text-classification",
      ["anger", "fear", "joy", "love", "optimism", "pessimism", "sadness", "surprise", "trust"]),
    TransformerModel("review-sentiment", "Product Review Sentiment",
      "nlptown/bert-base-multilingual-uncased-sentiment",
      "Specialized for product reviews and ratings",
      "text-classification", ["1 star", "2 stars", "3 stars", "4 stars", "5 stars"])
  ]

  // ---------------------------------------------------------------------------
  // Messages

  const WALLET_NOT_INSTALLED: string := "MetaMask is not installed"
  const NO_ACCOUNTS_FOUND: string := "No accounts found"
  const FAILED_TO_CONNECT: string := "Failed to connect wallet"
  const CONTRACT_NOT_INITIALIZED: string := "Contract not initialized"

  // ---------------------------------------------------------------------------
  // Address display

  const PREFIX_LENGTH: nat := 6
  const SUFFIX_LENGTH: nat := 4

  function Min(a: nat, b: nat): nat
  {
    if a <= b then a else b
  }

  /** The abbreviated form of an address: its first six characters, an
      ellipsis and its last four (fewer when the address is shorter). */
  function FormatAddress(address: string): (r: string)
    ensures address == "" ==> r == ""
    ensures address != "" ==>
      var p, q := Min(PREFIX_LENGTH, |address|), Min(SUFFIX_LENGTH, |address|);
      && |r| == p + 3 + q
      && r[..p] <= address
      && r[p..p + 3] == "..."
      && r[p + 3..] == address[|address| - q..]
  {
    if address == "" then ""
    else
      var head := address[..Min(PREFIX_LENGTH, |address|)];
      var tail := address[|address| - Min(SUFFIX_LENGTH, |address|)..];
      head + "..." + tail
  }

  // ---------------------------------------------------------------------------
  // Validators

  /** Every character of `s` is a hex digit of either case. */
  function AllHexDigits(s: string): (b: bool)
    ensures b <==> forall i :: 0 <= i < |s| ==> IsHexDigit(s[i])
  {
    if s == [] then true
    else
      var rest := AllHexDigits(s[1..]);
      assert forall i :: 1 <= i < |s| ==> s[i] == s[1..][i - 1];
      IsHexDigit(s[0]) && rest
  }

  /** The address pattern `^0x[a-fA-F0-9]{40}$`. */
  function IsValidEthereumAddress(address: string): (b: bool)
    ensures b <==>
      && |address| == 42
      && address[..2] == "0x"
      && forall i :: 2 <= i < |address| ==> IsHexDigit(address[i])
  {
    if |address| != 42 || address[..2] != "0x" then
      false
    else
      assert forall i :: 2 <= i < |address| ==> address[i] == address[2..][i - 2];
      AllHexDigits(address[2..])
  }

  /** A valid address abbreviates to 13 characters that keep its `0x` prefix. */
  lemma FormatValidAddress(address: string)
    requires IsValidEthereumAddress(address)
    ensures |FormatAddress(address)| == 13
    ensures FormatAddress(address)[..2] == "0x"
    ensures FormatAddress(address)[..6] == address[..6]
    ensures FormatAddress(address)[9..] == address[38..]
  {
    var r := FormatAddress(address);
    assert r[..2] == r[..6][..2];
    assert address[..2] == address[..6][..2];
  }

  /** JavaScript's line terminators, which `.` in a regular expression does not match. */
  predicate IsLineTerminator(c: char)
  {
    c == '\n' || c == '\r' || c == '\U{2028}' || c == '\U{2029}'
  }

  /** `prefix` begins `s` and the next character is one `.` matches. */
  predicate PrefixThenAnyChar(s: string, prefix: string)
  {
    prefix <= s && |s| > |prefix| && !IsLineTerminator(s[|prefix|])
  }

  /** `isValidUrl`: the URL constructor accepts the text (`urlParses`, an
      outcome of the platform's URL parser) and the text matches `^https?:\/\/.+`. */
  function IsValidUrl(url: string, urlParses: bool): (b: bool)
    ensures b ==> ("http://" <= url && |url| > 7) || ("https://" <= url && |url| > 8)
    ensures !urlParses ==> !b
  {
    urlParses && (PrefixThenAnyChar(url, "http://") || PrefixThenAnyChar(url, "https://"))
  }

  /** The converse of the prefix rule: a parseable `http://` or `https://` text
      followed by an ordinary character is accepted. */
  lemma UrlPrefixSuffices(url: string, scheme: string)
    requires scheme == "http://" || scheme == "https://"
    requires scheme <= url && |url| > |scheme| && !IsLineTerminator(url[|scheme|])
    ensures IsValidUrl(url, true)
  {
  }
}
