/**
 * The two feed filters: which social-media posts the zero-shot classifier
 * scores as risky, and which as optimistic.
 */
module Sentiment {
  import opened SeqFilter

  /** One social-media post; only its text is read. */
  datatype Feed = Feed(post: string)

  /**
   * The classifier collaborator: given a text and candidate labels, one score
   * per label, aligned with the labels. Nothing else is assumed of it.
   */
  type Classifier = f: (string, seq<string>) -> seq<real>
    | forall text, labels :: |f(text, labels)| == |labels|
    witness (text: string, labels: seq<string>) => seq(|labels|, _ => 0.0)

  const RiskLabels: seq<string> := ["Risky", "Worried", "Scared", "Problematic"]
  const OptimismLabels: seq<string> := ["Optimistic"]
  const RiskThreshold: real := 0.4
  const OptimismThreshold: real := 0.5

  /** Python's `any(score > threshold for score in scores)`. */
  function AnyAbove(scores: seq<real>, threshold: real): (b: bool)
    ensures b <==> exists i :: 0 <= i < |scores| && scores[i] > threshold
  {
    if scores == [] then false
    else scores[0] > threshold || AnyAbove(scores[1..], threshold)
  }

  /** The largest score. */
  function MaxScore(scores: seq<real>): (m: real)
    requires scores != []
    ensures forall i :: 0 <= i < |scores| ==> scores[i] <= m
    ensures exists i :: 0 <= i < |scores| && scores[i] == m
  {
    if |scores| == 1 then scores[0]
    else
      var rest := MaxScore(scores[1..]);
      assert forall i :: 1 <= i < |scores| ==> scores[i] == scores[1..][i - 1];
      if scores[0] >= rest then scores[0] else rest
  }

  /** Some score passes the threshold exactly when the largest one does. */
  lemma AnyAboveIffMaxAbove(scores: seq<real>, threshold: real)
    requires scores != []
    ensures AnyAbove(scores, threshold) <==> MaxScore(scores) > threshold
  {
  }

  /** A feed with at least one of the four risk-label scores above 0.4. */
  predicate IsRisky(classify: Classifier, feed: Feed): (b: bool)
    ensures b <==> exists i :: 0 <= i < |RiskLabels| && classify(feed.post, RiskLabels)[i] > RiskThreshold
  {
    AnyAbove(classify(feed.post, RiskLabels), RiskThreshold)
  }

  /**
   * A feed whose single "Optimistic" score is above 0.5: the same any-above
   * test as the risk filter, over a one-label list.
   */
  predicate IsOptimistic(classify: Classifier, feed: Feed): (b: bool)
    ensures b <==> AnyAbove(classify(feed.post, OptimismLabels), OptimismThreshold)
  {
    classify(feed.post, OptimismLabels)[0] > OptimismThreshold
  }

  function RiskyTest(classify: Classifier): Feed -> bool {
    feed => IsRisky(classify, feed)
  }

  function OptimismTest(classify: Classifier): Feed -> bool {
    feed => IsOptimistic(classify, feed)
  }

  /** What the risky-feed filter returns: the risky feeds, in input order. */
  function RiskyFeeds(classify: Classifier, feeds: seq<Feed>): seq<Feed> {
    Keep(feeds, RiskyTest(classify))
  }

  /** What the optimistic-feed filter returns: the optimistic feeds, in input order. */
  function OptimisticFeeds(classify: Classifier, feeds: seq<Feed>): seq<Feed> {
    Keep(feeds, OptimismTest(classify))
  }

  /** Collects the risky feeds by appending them one by one. */
  method GetRiskyFeeds(feeds: seq<Feed>, classify: Classifier) returns (risky: seq<Feed>)
    ensures risky == RiskyFeeds(classify, feeds)
  {
    risky := [];
    if feeds == [] {
      return;
    }
    for i := 0 to |feeds|
      invariant risky == RiskyFeeds(classify, feeds[..i])
    {
      if AnyAbove(classify(feeds[i].post, RiskLabels), RiskThreshold) {
        risky := risky + [feeds[i]];
      }
      assert feeds[..i + 1] == feeds[..i] + [feeds[i]];
      KeepConcat(feeds[..i], [feeds[i]], RiskyTest(classify));
    }
    assert feeds[..|feeds|] == feeds;
  }

  /** Collects the optimistic feeds by appending them one by one. */
  method GetOptimisticFeeds(feeds: seq<Feed>, classify: Classifier) returns (optimistic: seq<Feed>)
    ensures optimistic == OptimisticFeeds(classify, feeds)
  {
    optimistic := [];
    if feeds == [] {
      return;
    }
    for i := 0 to |feeds|
      invariant optimistic == OptimisticFeeds(classify, feeds[..i])
    {
      if classify(feeds[i].post, OptimismLabels)[0] > OptimismThreshold {
        optimistic := optimistic + [feeds[i]];
      }
      assert feeds[..i + 1] == feeds[..i] + [feeds[i]];
      KeepConcat(feeds[..i], [feeds[i]], OptimismTest(classify));
    }
    assert feeds[..|feeds|] == feeds;
  }

  /** A feed is risky exactly when its largest risk-label score is above 0.4. */
  lemma RiskyIffMaxScoreAbove(classify: Classifier, feed: Feed)
    ensures IsRisky(classify, feed) <==> MaxScore(classify(feed.post, RiskLabels)) > RiskThreshold
  {
  }

  /** The risky-feed filter keeps exactly the risky feeds, in order, and nothing else. */
  lemma RiskyFeedsExactly(classify: Classifier, feeds: seq<Feed>, feed: Feed)
    ensures feed in RiskyFeeds(classify, feeds) <==> feed in feeds && IsRisky(classify, feed)
    ensures IsSubsequence(RiskyFeeds(classify, feeds), feeds)
  {
    KeepMembership(feeds, RiskyTest(classify), feed);
    KeepIsSubsequence(feeds, RiskyTest(classify));
  }

  /** The optimistic-feed filter keeps exactly the optimistic feeds, in order, and nothing else. */
  lemma OptimisticFeedsExactly(classify: Classifier, feeds: seq<Feed>, feed: Feed)
    ensures feed in OptimisticFeeds(classify, feeds) <==> feed in feeds && IsOptimistic(classify, feed)
    ensures IsSubsequence(OptimisticFeeds(classify, feeds), feeds)
  {
    KeepMembership(feeds, OptimismTest(classify), feed);
    KeepIsSubsequence(feeds, OptimismTest(classify));
  }
}
