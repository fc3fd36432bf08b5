/** The writing index: every post's summary, newest first, each linking to
    its own page. Dates are compared through `time`, the millisecond value
    `Number(new Date(publishedAt))` assigns to each date string. */
module Writing {
  import opened Js
  import opened Documents

  datatype Summary = Summary(slug: string, title: string, summary: string, publishedAt: string)

  function ToSummary(doc: WritingDoc): Summary {
    Summary(doc.slug, doc.title, doc.summary, doc.publishedAt)
  }

  /** `allWritings.map(...)`: the fields the list shows, one entry per document, in order. */
  function Summaries(docs: seq<WritingDoc>): (s: seq<Summary>)
    ensures |s| == |docs|
    ensures forall i :: 0 <= i < |docs| ==> s[i] == ToSummary(docs[i])
  {
    seq(|docs|, i requires 0 <= i < |docs| => ToSummary(docs[i]))
  }

  /** Newest first: no entry is dated after an entry before it. */
  predicate NewestFirst(s: seq<Summary>, time: string -> int) {
    forall i, j :: 0 <= i < j < |s| ==> time(s[i].publishedAt) >= time(s[j].publishedAt)
  }

  /** The entries of `s` dated exactly `t`, in their order in `s`. */
  function DatedAt(s: seq<Summary>, time: string -> int, t: int): seq<Summary>
    decreases |s|
  {
    if s == [] then []
    else (if time(s[0].publishedAt) == t then [s[0]] else []) + DatedAt(s[1..], time, t)
  }

  /** Places x before the first entry not newer than it. */
  function Insert(x: Summary, s: seq<Summary>, time: string -> int): seq<Summary>
    decreases |s|
  {
    if s == [] then [x]
    else if time(s[0].publishedAt) <= time(x.publishedAt) then [x] + s
    else [s[0]] + Insert(x, s[1..], time)
  }

  /** Insertion adds exactly the element. */
  lemma {:induction false} InsertPermutes(x: Summary, s: seq<Summary>, time: string -> int)
    ensures multiset(Insert(x, s, time)) == multiset(s) + multiset{x}
    decreases |s|
  {
    if s != [] && time(s[0].publishedAt) > time(x.publishedAt) {
      InsertPermutes(x, s[1..], time);
      assert s == [s[0]] + s[1..];
    }
  }

  /** Insertion into a newest-first list keeps it newest first. */
  lemma {:induction false} InsertKeepsOrder(x: Summary, s: seq<Summary>, time: string -> int)
    requires NewestFirst(s, time)
    ensures NewestFirst(Insert(x, s, time), time)
    decreases |s|
  {
    if s == [] {
    } else if time(s[0].publishedAt) <= time(x.publishedAt) {
      ConsNewestFirst(x, s, time);
    } else {
      TailNewestFirst(s, time);
      var rest := Insert(x, s[1..], time);
      InsertKeepsOrder(x, s[1..], time);
      InsertPermutes(x, s[1..], time);
      ConsNewestFirst(s[0], rest, time);
    }
  }

  lemma TailNewestFirst(s: seq<Summary>, time: string -> int)
    requires s != [] && NewestFirst(s, time)
    ensures NewestFirst(s[1..], time)
    ensures forall y :: y in s[1..] ==> time(y.publishedAt) <= time(s[0].publishedAt)
  {
    forall i, j | 0 <= i < j < |s| - 1
      ensures time(s[1..][i].publishedAt) >= time(s[1..][j].publishedAt)
    {
      assert s[1..][i] == s[i + 1] && s[1..][j] == s[j + 1];
    }
  }

  /** Putting h in front keeps the order when nothing in `rest` is newer than h. */
  lemma ConsNewestFirst(h: Summary, rest: seq<Summary>, time: string -> int)
    requires NewestFirst(rest, time)
    requires forall y :: y in multiset(rest) ==> time(y.publishedAt) <= time(h.publishedAt)
    ensures NewestFirst([h] + rest, time)
  {
    var r := [h] + rest;
    forall i, j | 0 <= i < j < |r|
      ensures time(r[i].publishedAt) >= time(r[j].publishedAt)
    {
      assert r[j] == rest[j - 1];
      assert rest[j - 1] in multiset(rest);
      if i > 0 {
        assert r[i] == rest[i - 1];
      }
    }
  }

  /** `.sort((a, b) => time(b) - time(a))` with JavaScript's stable sort. */
  function SortNewestFirst(s: seq<Summary>, time: string -> int): (r: seq<Summary>)
    ensures multiset(r) == multiset(s)
    ensures |r| == |s|
    ensures NewestFirst(r, time)
    decreases |s|
  {
    if s == [] then []
    else
      var sorted := SortNewestFirst(s[1..], time);
      InsertPermutes(s[0], sorted, time);
      InsertKeepsOrder(s[0], sorted, time);
      MultisetOfCons(s);
      assert |multiset(Insert(s[0], sorted, time))| == |multiset(s)|;
      Insert(s[0], sorted, time)
  }

  lemma MultisetOfCons(s: seq<Summary>)
    requires s != []
    ensures multiset(s) == multiset(s[1..]) + multiset{s[0]}
  {
    assert s == [s[0]] + s[1..];
  }

  lemma DatedAtCons(h: Summary, s: seq<Summary>, time: string -> int, t: int)
    ensures DatedAt([h] + s, time, t) == (if time(h.publishedAt) == t then [h] else []) + DatedAt(s, time, t)
  {
    assert ([h] + s)[0] == h && ([h] + s)[1..] == s;
  }

  lemma {:induction false} InsertDatedAt(x: Summary, s: seq<Summary>, time: string -> int, t: int)
    ensures DatedAt(Insert(x, s, time), time, t)
            == (if time(x.publishedAt) == t then [x] else []) + DatedAt(s, time, t)
    decreases |s|
  {
    if s == [] {
    } else if time(s[0].publishedAt) <= time(x.publishedAt) {
      DatedAtCons(x, s, time, t);
    } else {
      var rest := Insert(x, s[1..], time);
      InsertDatedAt(x, s[1..], time, t);
      DatedAtCons(s[0], rest, time, t);
      DatedAtCons(s[0], s[1..], time, t);
      assert [s[0]] + s[1..] == s;
    }
  }

  /** The sort is stable: entries with the same date keep their original order. */
  lemma {:induction false} SortIsStable(s: seq<Summary>, time: string -> int, t: int)
    ensures DatedAt(SortNewestFirst(s, time), time, t) == DatedAt(s, time, t)
    decreases |s|
  {
    if s != [] {
      SortIsStable(s[1..], time, t);
      InsertDatedAt(s[0], SortNewestFirst(s[1..], time), time, t);
    }
  }

  /** getData on the index page. */
  function GetData(docs: seq<WritingDoc>, time: string -> int): (posts: seq<Summary>)
    ensures multiset(posts) == multiset(Summaries(docs))
    ensures NewestFirst(posts, time)
  {
    SortNewestFirst(Summaries(docs), time)
  }

  /** Every listed entry is some document's summary, and every document is listed. */
  lemma ListedIffPublished(docs: seq<WritingDoc>, time: string -> int, x: Summary)
    ensures x in GetData(docs, time) <==> exists i :: 0 <= i < |docs| && x == ToSummary(docs[i])
  {
    var posts := GetData(docs, time);
    assert x in posts <==> x in multiset(posts);
    assert x in Summaries(docs) <==> x in multiset(Summaries(docs));
    if x in Summaries(docs) {
      var i :| 0 <= i < |docs| && Summaries(docs)[i] == x;
    }
  }

  const WritingPrefix: string := "/writing/"

  /** The link each entry points to. */
  function WritingHref(slug: string): (href: string)
    ensures |href| == |WritingPrefix| + |slug|
    ensures href[..|WritingPrefix|] == WritingPrefix && href[|WritingPrefix|..] == slug
  {
    WritingPrefix + slug
  }

  /** `s` without its trailing slashes. */
  function TrimTrailingSlashes(s: string): (r: string)
    ensures r <= s
    ensures r == "" || r[|r| - 1] != '/'
    ensures forall i :: |r| <= i < |s| ==> s[i] == '/'
    decreases |s|
  {
    if s != [] && s[|s| - 1] == '/' then TrimTrailingSlashes(s[..|s| - 1]) else s
  }

  /** A run of n slashes. */
  function Slashes(n: nat): (s: string)
    ensures |s| == n && forall i :: 0 <= i < n ==> s[i] == '/'
  {
    seq(n, _ => '/')
  }

  /** The `:slug` parameter when a path matches the route `/writing/:slug`: exactly one
      non-empty segment after the prefix, optionally followed by slashes. */
  function RouteSlug(path: string): (slug: Option<string>)
    ensures slug.Some? ==> slug.value != "" && '/' !in slug.value
    ensures slug.Some? ==> WritingHref(slug.value) <= path
    ensures slug.Some? ==> forall i :: |WritingHref(slug.value)| <= i < |path| ==> path[i] == '/'
    ensures !(|path| > |WritingPrefix| && path[..|WritingPrefix|] == WritingPrefix) ==> slug.None?
  {
    if |path| > |WritingPrefix| && path[..|WritingPrefix|] == WritingPrefix then
      var segment := TrimTrailingSlashes(path[|WritingPrefix|..]);
      if segment != "" && '/' !in segment then Some(segment) else None
    else None
  }

  /** Every path made of the prefix, one segment and trailing slashes routes to that
      segment: together with RouteSlug's contract, the route matches exactly these paths. */
  lemma {:induction false} RouteSlugMatches(segment: string, n: nat)
    requires segment != "" && '/' !in segment
    ensures RouteSlug(WritingHref(segment) + Slashes(n)) == Some(segment)
  {
    var path := WritingHref(segment) + Slashes(n);
    assert path[..|WritingPrefix|] == WritingPrefix;
    assert path[|WritingPrefix|..] == segment + Slashes(n);
    TrimSlashesOfSegment(segment, n);
  }

  lemma {:induction false} TrimSlashesOfSegment(segment: string, n: nat)
    requires segment != "" && segment[|segment| - 1] != '/'
    ensures TrimTrailingSlashes(segment + Slashes(n)) == segment
    decreases n
  {
    if n == 0 {
      assert segment + Slashes(0) == segment;
    } else {
      var s := segment + Slashes(n);
      assert s[|s| - 1] == '/';
      assert s[..|s| - 1] == segment + Slashes(n - 1);
      TrimSlashesOfSegment(segment, n - 1);
    }
  }

  /** A path with a second segment does not match the route. */
  lemma TwoSegmentsDoNotRoute(first: string, second: string)
    requires first != "" && second != "" && '/' !in second
    ensures RouteSlug(WritingHref(first + "/" + second)) == None
  {
    var path := WritingHref(first + "/" + second);
    assert path[..|WritingPrefix|] == WritingPrefix;
    assert path[|WritingPrefix|..] == first + "/" + second;
    var segment := TrimTrailingSlashes(first + "/" + second);
    assert segment == first + "/" + second;
    assert segment[|first|] == '/';
  }

  /** Following an entry's link hands its slug back to the post page. */
  lemma HrefRoundTrip(slug: string)
    requires slug != "" && '/' !in slug
    ensures RouteSlug(WritingHref(slug)) == Some(slug)
  {
    RouteSlugMatches(slug, 0);
    assert WritingHref(slug) + Slashes(0) == WritingHref(slug);
  }
}
