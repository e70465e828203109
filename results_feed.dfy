/** The live results page: the bounded feed of delivered results, newest
    first, the per-sentiment counts shown over it and the confidence bands. */
module ResultsFeed {
  import opened Base
  import opened Types

  const FEED_LIMIT: nat := 50

  /** A delivered result put in front of the feed, which then keeps at most
      `FEED_LIMIT` entries. */
  function Push(feed: seq<SentimentResult>, r: SentimentResult): (f: seq<SentimentResult>)
    ensures |f| == if |feed| < FEED_LIMIT then |feed| + 1 else FEED_LIMIT
    ensures f[0] == r
    ensures forall i :: 0 <= i < |f| - 1 ==> f[i + 1] == feed[i]
  {
    var grown := [r] + feed;
    grown[..if |grown| < FEED_LIMIT then |grown| else FEED_LIMIT]
  }

  /** The feed after results are delivered in order, starting empty. */
  function FeedOf(delivered: seq<SentimentResult>): seq<SentimentResult>
  {
    if delivered == [] then []
    else Push(FeedOf(delivered[..|delivered| - 1]), delivered[|delivered| - 1])
  }

  /** Never more than `FEED_LIMIT` entries, whatever is delivered. */
  lemma {:induction false} FeedBounded(delivered: seq<SentimentResult>)
    ensures |FeedOf(delivered)| <= FEED_LIMIT
  {
    if delivered != [] {
      FeedBounded(delivered[..|delivered| - 1]);
    }
  }

  /** The feed is exactly the most recent `FEED_LIMIT` deliveries, newest
      first: the `i`-th entry is the `i`-th delivery counted from the end. */
  lemma {:induction false} FeedIsMostRecent(delivered: seq<SentimentResult>)
    ensures |FeedOf(delivered)| == if |delivered| < FEED_LIMIT then |delivered| else FEED_LIMIT
    ensures forall i :: 0 <= i < |FeedOf(delivered)| ==>
      FeedOf(delivered)[i] == delivered[|delivered| - 1 - i]
  {
    if delivered != [] {
      var init := delivered[..|delivered| - 1];
      FeedIsMostRecent(init);
      var f := FeedOf(delivered);
      forall i | 0 < i < |f|
        ensures f[i] == delivered[|delivered| - 1 - i]
      {
        assert f[i] == FeedOf(init)[i - 1];
        assert init[|init| - 1 - (i - 1)] == delivered[|delivered| - 1 - i];
      }
    }
  }

  /** What a push does to the count of one sentiment: the new result is
      counted, and on a full feed the oldest entry is no longer. */
  lemma PushCount(feed: seq<SentimentResult>, r: SentimentResult, sentiment: string)
    requires |feed| <= FEED_LIMIT
    ensures
      var added := if r.sentiment == sentiment then 1 else 0;
      && (|feed| < FEED_LIMIT ==>
            CountSentiment(Push(feed, r), sentiment) == CountSentiment(feed, sentiment) + added)
      && (|feed| == FEED_LIMIT ==>
            CountSentiment(Push(feed, r), sentiment) + (if feed[|feed| - 1].sentiment == sentiment then 1 else 0)
              == CountSentiment(feed, sentiment) + added)
  {
    var f := Push(feed, r);
    assert CountSentiment([r], sentiment) == if r.sentiment == sentiment then 1 else 0 by {
      assert [r][1..] == [];
    }
    if |feed| < FEED_LIMIT {
      assert f == [r] + feed;
      CountSentimentAppend([r], feed, sentiment);
    } else {
      var kept := feed[..|feed| - 1];
      var last := feed[|feed| - 1];
      assert f == [r] + kept;
      assert feed == kept + [last];
      CountSentimentAppend([r], kept, sentiment);
      CountSentimentAppend(kept, [last], sentiment);
      assert CountSentiment([last], sentiment) == if last.sentiment == sentiment then 1 else 0 by {
        assert [last][1..] == [];
      }
    }
  }

  /** The shown counts of the three sentiments add up to the feed's length
      for results carrying one of them. */
  lemma {:induction false} ShownCountsAddUp(feed: seq<SentimentResult>)
    requires forall i :: 0 <= i < |feed| ==> feed[i].sentiment in {POSITIVE, NEUTRAL, NEGATIVE}
    ensures CountSentiment(feed, POSITIVE) + CountSentiment(feed, NEUTRAL) + CountSentiment(feed, NEGATIVE) == |feed|
  {
    if feed != [] {
      ShownCountsAddUp(feed[1..]);
    }
  }

  // ---------------------------------------------------------------------------
  // The page over time

  /** What the page sees: the wallet's account changes (the effect re-runs,
      removing the old listener and registering a new one only for a
      non-empty account), or a result reaches the listener. */
  datatype PageEvent = AccountIs(account: Option<string>) | Delivered(result: SentimentResult)

  /** The page's state: the account its effect last ran for and the kept
      results, which no account change clears. The page renders them only
      while a wallet is connected; otherwise its wallet guard shows a notice
      in their place, and they reappear on reconnection. */
  datatype Page = Page(account: Option<string>, results: seq<SentimentResult>)

  const InitialPage: Page := Page(None, [])

  /** One event. A delivery is kept only while a listener is registered,
      that is, while the account is non-empty. */
  function Step(p: Page, e: PageEvent): Page
  {
    match e
    case AccountIs(a) => p.(account := a)
    case Delivered(r) => if Truthy(p.account).Some? then p.(results := Push(p.results, r)) else p
  }

  /** The page after `events`, in order, from its first render. */
  function PageAfter(events: seq<PageEvent>): Page
    decreases |events|
  {
    if events == [] then InitialPage else Step(PageAfter(events[..|events| - 1]), events[|events| - 1])
  }

  /** The results that reached a listener: those delivered while the account
      was non-empty, in delivery order. */
  function Accepted(events: seq<PageEvent>): seq<SentimentResult>
    decreases |events|
  {
    if events == [] then []
    else
      var init := events[..|events| - 1];
      match events[|events| - 1]
      case AccountIs(_) => Accepted(init)
      case Delivered(r) => if Truthy(PageAfter(init).account).Some? then Accepted(init) + [r] else Accepted(init)
  }

  /** The page shows the feed of the accepted results, whatever the account
      did in between: a disconnect or an account switch keeps the entries. */
  lemma {:induction false} PageShowsAccepted(events: seq<PageEvent>)
    ensures PageAfter(events).results == FeedOf(Accepted(events))
    decreases |events|
  {
    if events != [] {
      var init := events[..|events| - 1];
      PageShowsAccepted(init);
      var acc := Accepted(init);
      match events[|events| - 1]
      case AccountIs(_) =>
      case Delivered(r) =>
        if Truthy(PageAfter(init).account).Some? {
          assert (acc + [r])[..|acc + [r]| - 1] == acc;
        }
    }
  }

  /** Hence the page holds the 50 most recent accepted results, newest first. */
  lemma PageIsMostRecent(events: seq<PageEvent>)
    ensures
      var kept, acc := PageAfter(events).results, Accepted(events);
      && |kept| == (if |acc| < FEED_LIMIT then |acc| else FEED_LIMIT)
      && forall i :: 0 <= i < |kept| ==> kept[i] == acc[|acc| - 1 - i]
  {
    PageShowsAccepted(events);
    FeedIsMostRecent(Accepted(events));
  }

  /** An account change, to null or to another account, keeps every result
      it holds. */
  lemma AccountChangeKeepsResults(events: seq<PageEvent>, a: Option<string>)
    ensures PageAfter(events + [AccountIs(a)]).results == PageAfter(events).results
    ensures PageAfter(events + [AccountIs(a)]).account == a
  {
    assert (events + [AccountIs(a)])[..|events|] == events;
  }

  /** Without an account, a delivery changes nothing. */
  lemma NoAccountIgnoresDelivery(events: seq<PageEvent>, r: SentimentResult)
    requires Truthy(PageAfter(events).account).None?
    ensures PageAfter(events + [Delivered(r)]) == PageAfter(events)
  {
    assert (events + [Delivered(r)])[..|events|] == events;
  }

  /** With an account, the delivery heads the kept results. */
  lemma AccountShowsDelivery(events: seq<PageEvent>, r: SentimentResult)
    requires Truthy(PageAfter(events).account).Some?
    ensures PageAfter(events + [Delivered(r)]).results == Push(PageAfter(events).results, r)
    ensures PageAfter(events + [Delivered(r)]).results[0] == r
  {
    assert (events + [Delivered(r)])[..|events|] == events;
  }

  // ---------------------------------------------------------------------------
  // Confidence bands

  datatype ConfidenceLevel = High | Medium | Low

  /** `getConfidenceLevel` */
  function LevelOf(confidence: int): (l: ConfidenceLevel)
    ensures l == High <==> confidence >= 80
    ensures l == Medium <==> 60 <= confidence < 80
    ensures l == Low <==> confidence < 60
  {
    if confidence >= 80 then High
    else if confidence >= 60 then Medium
    else Low
  }

  function Rank(l: ConfidenceLevel): nat
  {
    match l
    case Low => 0
    case Medium => 1
    case High => 2
  }

  /** A higher confidence never falls in a lower band. */
  lemma LevelMonotone(c: int, d: int)
    requires c <= d
    ensures Rank(LevelOf(c)) <= Rank(LevelOf(d))
  {
  }
}
