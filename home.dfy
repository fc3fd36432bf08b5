/** The "Recent writing" list on the home page: the three newest entries of
    the writing index. */
module Home {
  import opened Js
  import opened Documents
  import opened Writing

  const RecentCount: nat := 3

  /** getData on the home page: the index's order, cut to its first three entries. */
  function RecentWriting(docs: seq<WritingDoc>, time: string -> int): (posts: seq<Summary>)
    ensures |posts| == Min(RecentCount, |docs|)
    ensures posts <= GetData(docs, time)
    ensures NewestFirst(posts, time)
  {
    var all := GetData(docs, time);
    all[..Min(RecentCount, |all|)]
  }

  /** Nothing left off the home page is newer than anything on it. */
  lemma LeftOutAreNotNewer(docs: seq<WritingDoc>, time: string -> int, x: Summary, y: Summary)
    requires x in RecentWriting(docs, time)
    requires y in GetData(docs, time) && y !in RecentWriting(docs, time)
    ensures time(y.publishedAt) <= time(x.publishedAt)
  {
    var all := GetData(docs, time);
    var recent := RecentWriting(docs, time);
    var i :| 0 <= i < |recent| && recent[i] == x;
    var j :| 0 <= j < |all| && all[j] == y;
    assert recent == all[..|recent|];
    assert all[i] == x;
  }

  /** Every entry on the home page is the summary of some document. */
  lemma RecentAreProjections(docs: seq<WritingDoc>, time: string -> int, x: Summary)
    requires x in RecentWriting(docs, time)
    ensures exists i :: 0 <= i < |docs| && x == ToSummary(docs[i])
  {
    var all := GetData(docs, time);
    var recent := RecentWriting(docs, time);
    var k :| 0 <= k < |recent| && recent[k] == x;
    assert all[k] == x;
    ListedIffPublished(docs, time, x);
  }

  /** With at most three documents the home page lists all of them. */
  lemma ShortIndexShownWhole(docs: seq<WritingDoc>, time: string -> int)
    requires |docs| <= RecentCount
    ensures RecentWriting(docs, time) == GetData(docs, time)
  {
  }
}
