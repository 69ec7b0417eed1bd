/**
 * Which feeds concern which instrument: a feed is related when its text names
 * one of the instrument's aliases as a whole word, ignoring case.
 */
module Relevance {
  import opened WordMatch
  import opened Sentiment

  /**
   * The instrument-to-alias table, as configured. "SAN" lists "Pfizer's" as an
   * alias, so a post about Pfizer's is related to Santander too.
   */
  const AliasTable: map<string, seq<string>> := map[
    "CSCO" := ["Cisco", "Cisco's"],
    "NVDA" := ["Nvidia", "Nvidia's"],
    "ING" := ["ING", "ING's"],
    "PFE" := ["Pfizer", "Pfizer's"],
    "SAN" := ["Santander", "Pfizer's"]
  ]

  /**
   * "Pfizer's" is the only alias listed under two instruments, PFE and SAN;
   * every other alias belongs to exactly one.
   */
  lemma SharedAliasIsPfizers(id: string, id': string, alias: string)
    requires id in AliasTable && id' in AliasTable && id != id'
    requires alias in AliasTable[id] && alias in AliasTable[id']
    ensures alias == "Pfizer's" && {id, id'} == {"PFE", "SAN"}
  {
  }

  /** `text` names one of the aliases of `instrumentId` as a whole word. */
  predicate MentionsInstrument(text: string, instrumentId: string)
    requires instrumentId in AliasTable
  {
    exists j :: 0 <= j < |AliasTable[instrumentId]| && ContainsWord(text, AliasTable[instrumentId][j])
  }

  /**
   * Some feed mentions the instrument. The table is consulted only once there is
   * a feed to look at, so an unknown identifier is an error only for a non-empty list.
   */
  predicate Related(feeds: seq<Feed>, instrumentId: string)
    requires feeds != [] ==> instrumentId in AliasTable
  {
    exists i :: 0 <= i < |feeds| && MentionsInstrument(feeds[i].post, instrumentId)
  }

  /** Tries every alias against every feed, returning at the first match. */
  method IsRelated(feeds: seq<Feed>, instrumentId: string) returns (related: bool)
    requires feeds != [] ==> instrumentId in AliasTable
    ensures related <==> Related(feeds, instrumentId)
  {
    for i := 0 to |feeds|
      invariant forall k :: 0 <= k < i ==> !MentionsInstrument(feeds[k].post, instrumentId)
    {
      var names := AliasTable[instrumentId];
      for j := 0 to |names|
        invariant forall m :: 0 <= m < j ==> !ContainsWord(feeds[i].post, names[m])
      {
        if ContainsWord(feeds[i].post, names[j]) {
          return true;
        }
      }
    }
    return false;
  }

  /** No feed, no relation, whatever the identifier. */
  lemma NothingRelatedToNoFeeds(instrumentId: string)
    ensures !Related([], instrumentId)
  {
  }

  /** A feed on the list that mentions the instrument makes the list related to it. */
  lemma RelatedByMember(feeds: seq<Feed>, instrumentId: string, feed: Feed)
    requires instrumentId in AliasTable
    requires feed in feeds && MentionsInstrument(feed.post, instrumentId)
    ensures Related(feeds, instrumentId)
  {
    var i :| 0 <= i < |feeds| && feeds[i] == feed;
    assert MentionsInstrument(feeds[i].post, instrumentId);
  }

  /** Any post naming "Pfizer's" as a whole word is related both to Pfizer and, through the table, to Santander. */
  lemma PfizersMentionRelatedToBoth(text: string)
    requires ContainsWord(text, "Pfizer's")
    ensures Related([Feed(text)], "SAN") && Related([Feed(text)], "PFE")
  {
    assert AliasTable["SAN"][1] == "Pfizer's" && AliasTable["PFE"][1] == "Pfizer's";
    assert [Feed(text)][0].post == text;
  }

  /** The post "Pfizer's profits fall" names "Pfizer's" as a whole word, so it is related to both. */
  lemma PfizerPostRelatedToSantander()
    ensures Related([Feed("Pfizer's profits fall")], "SAN")
    ensures Related([Feed("Pfizer's profits fall")], "PFE")
  {
    var text := "Pfizer's profits fall";
    var word := "Pfizer's";
    assert text[..|word|] == word;
    assert SameIgnoringCase(text[0..|word|], word);
    assert BoundaryAt(text, 0);
    assert BoundaryAt(text, |word|) by {
      assert IsWordChar(text[|word| - 1]) && !IsWordChar(text[|word|]);
    }
    assert WordAt(text, word, 0);
    assert ContainsWord(text, AliasTable["SAN"][1]);
    assert ContainsWord(text, AliasTable["PFE"][1]);
    assert [Feed(text)][0].post == text;
  }

  /** "Trading" holds "ing", but not as a whole word, so it is not about ING. */
  lemma TradingNotRelatedToIng()
    ensures !Related([Feed("Trading")], "ING")
  {
  }
}
