/** The Instagram feed client: post records, the credential guard and media
    filter around the (abstracted) Graph API request, the relative-date
    labels and the flattening of carousel albums into one post per image. */
module Instagram {
  import opened Js

  datatype MediaType = Image | CarouselAlbum | Video

  /** Children of an album are typed IMAGE or VIDEO only. */
  type ChildMediaType = t: MediaType | t != CarouselAlbum witness Image

  datatype Media = Media(id: string, mediaType: ChildMediaType, mediaUrl: string)

  /** Back-reference from a flattened image to the album it came from. */
  datatype CarouselInfo = CarouselInfo(parentId: string, currentIndex: nat, totalImages: nat, allImages: seq<string>)

  /** `children` is None when either `children` or `children.data` is absent. */
  datatype Post = Post(
    id: string,
    caption: Option<string>,
    mediaType: MediaType,
    mediaUrl: string,
    thumbnailUrl: Option<string>,
    permalink: string,
    timestamp: string,
    children: Option<seq<Media>>,
    carouselInfo: Option<CarouselInfo>)

  /** An album whose children list is present (the test `post.children?.data`). */
  predicate IsAlbumWithChildren(post: Post) {
    post.mediaType == CarouselAlbum && post.children.Some?
  }

  /** The IMAGE children, in their original order. */
  function ImageChildren(children: seq<Media>): (r: seq<Media>)
    ensures |r| <= |children|
    ensures forall m :: m in r <==> m in children && m.mediaType == Image
    decreases |children|
  {
    if children == [] then []
    else (if children[0].mediaType == Image then [children[0]] else []) + ImageChildren(children[1..])
  }

  /** The VIDEO children, in their original order. */
  function VideoChildren(children: seq<Media>): (r: seq<Media>)
    ensures |r| <= |children|
    ensures forall m :: m in r <==> m in children && m.mediaType == Video
    decreases |children|
  {
    if children == [] then []
    else (if children[0].mediaType == Video then [children[0]] else []) + VideoChildren(children[1..])
  }

  /** Every child is an image or a video, so the two filters split the children. */
  lemma {:induction false} ImagesAndVideosPartition(children: seq<Media>)
    ensures |ImageChildren(children)| + |VideoChildren(children)| == |children|
    decreases |children|
  {
    if children != [] {
      ImagesAndVideosPartition(children[1..]);
    }
  }

  /** The image filter commutes with concatenation: kept children stay in input order,
      each as often as it occurs. */
  lemma {:induction false} ImageChildrenAppend(a: seq<Media>, b: seq<Media>)
    ensures ImageChildren(a + b) == ImageChildren(a) + ImageChildren(b)
    decreases |a|
  {
    if a == [] {
      assert a + b == b;
    } else {
      assert (a + b)[0] == a[0];
      assert (a + b)[1..] == a[1..] + b;
      ImageChildrenAppend(a[1..], b);
    }
  }

  /** The video filter commutes with concatenation, as the image filter does. */
  lemma {:induction false} VideoChildrenAppend(a: seq<Media>, b: seq<Media>)
    ensures VideoChildren(a + b) == VideoChildren(a) + VideoChildren(b)
    decreases |a|
  {
    if a == [] {
      assert a + b == b;
    } else {
      assert (a + b)[0] == a[0];
      assert (a + b)[1..] == a[1..] + b;
      VideoChildrenAppend(a[1..], b);
    }
  }

  function MediaUrls(media: seq<Media>): (urls: seq<string>)
    ensures |urls| == |media|
    ensures forall i :: 0 <= i < |media| ==> urls[i] == media[i].mediaUrl
  {
    seq(|media|, i requires 0 <= i < |media| => media[i].mediaUrl)
  }

  // ---------------------------------------------------------------------------
  // fetchInstagramPosts / fetchInstagramProfile

  const NotConfiguredMessage: string :=
    "Instagram not configured. Add VITE_INSTAGRAM_USER_ID and VITE_INSTAGRAM_ACCESS_TOKEN to your environment."
  const FeedFallbackMessage: string := "Failed to load Instagram feed"
  const ProfileFallbackMessage: string := "Failed to load Instagram profile"

  /** What the request produced: the parsed body's `data` field, or the message of
      what was thrown (None when the thrown value is not an Error). */
  datatype FeedOutcome = FeedReceived(data: Option<seq<Post>>) | FeedFailed(thrown: Option<string>)

  datatype FeedResponse = FeedResponse(posts: seq<Post>, error: Option<string>)

  datatype Profile = Profile(id: string, username: Option<string>, accountType: Option<string>, mediaCount: Option<int>)

  datatype ProfileOutcome = ProfileReceived(profile: Profile) | ProfileFailed(thrown: Option<string>)

  datatype ProfileResponse = ProfileResponse(profile: Option<Profile>, error: Option<string>)

  /** Both environment variables are set and non-empty. */
  predicate Configured(userId: Option<string>, accessToken: Option<string>) {
    Truthy(userId) && Truthy(accessToken)
  }

  predicate Displayable(post: Post) {
    post.mediaType == Image || post.mediaType == CarouselAlbum
  }

  /** The feed filter: IMAGE and CAROUSEL_ALBUM items in their original order. */
  function KeepDisplayable(items: seq<Post>): (r: seq<Post>)
    ensures |r| <= |items|
    ensures forall p :: p in r <==> p in items && Displayable(p)
    decreases |items|
  {
    if items == [] then []
    else (if Displayable(items[0]) then [items[0]] else []) + KeepDisplayable(items[1..])
  }

  /** Filtering commutes with concatenation, so the relative order of kept items is the input's. */
  lemma {:induction false} KeepDisplayableAppend(a: seq<Post>, b: seq<Post>)
    ensures KeepDisplayable(a + b) == KeepDisplayable(a) + KeepDisplayable(b)
    decreases |a|
  {
    if a == [] {
      assert a + b == b;
    } else {
      assert (a + b)[0] == a[0];
      assert (a + b)[1..] == a[1..] + b;
      KeepDisplayableAppend(a[1..], b);
    }
  }

  /** A feed without videos passes the filter unchanged. */
  lemma {:induction false} KeepDisplayableIdentity(items: seq<Post>)
    requires forall p :: p in items ==> Displayable(p)
    ensures KeepDisplayable(items) == items
    decreases |items|
  {
    if items != [] {
      KeepDisplayableIdentity(items[1..]);
    }
  }

  function ThrownMessage(thrown: Option<string>, fallback: string): string {
    if thrown.Some? then thrown.value else fallback
  }

  /** fetchInstagramPosts: the credential guard, then the filtered feed or the error. */
  function FetchInstagramPosts(userId: Option<string>, accessToken: Option<string>, outcome: FeedOutcome): (r: FeedResponse)
    ensures !Configured(userId, accessToken) ==> r == FeedResponse([], Some(NotConfiguredMessage))
    ensures r.error.Some? <==> !Configured(userId, accessToken) || outcome.FeedFailed?
    ensures r.error.Some? ==> r.posts == []
    ensures forall p :: p in r.posts ==> Displayable(p)
    ensures Configured(userId, accessToken) && outcome.FeedReceived? ==>
              r.posts == KeepDisplayable(if outcome.data.Some? then outcome.data.value else [])
    ensures Configured(userId, accessToken) && outcome.FeedReceived? && outcome.data.None? ==>
              r == FeedResponse([], None)
    ensures Configured(userId, accessToken) && outcome.FeedFailed? ==>
              r == FeedResponse([], Some(ThrownMessage(outcome.thrown, FeedFallbackMessage)))
    ensures Configured(userId, accessToken) && outcome.FeedReceived? && outcome.data.Some? ==>
              forall p :: p in outcome.data.value ==> (p in r.posts <==> Displayable(p))
  {
    if !Configured(userId, accessToken) then
      FeedResponse([], Some(NotConfiguredMessage))
    else
      match outcome
      case FeedReceived(data) =>
        FeedResponse(KeepDisplayable(if data.Some? then data.value else []), None)
      case FeedFailed(thrown) =>
        FeedResponse([], Some(ThrownMessage(thrown, FeedFallbackMessage)))
  }

  /** Without credentials no request is made: nothing the network could answer changes the result. */
  lemma UnconfiguredFeedIgnoresNetwork(userId: Option<string>, accessToken: Option<string>, o1: FeedOutcome, o2: FeedOutcome)
    requires !Configured(userId, accessToken)
    ensures FetchInstagramPosts(userId, accessToken, o1) == FetchInstagramPosts(userId, accessToken, o2)
  {
  }

  /** fetchInstagramProfile: the same guard and error shape, with a null profile on failure. */
  function FetchInstagramProfile(userId: Option<string>, accessToken: Option<string>, outcome: ProfileOutcome): (r: ProfileResponse)
    ensures !Configured(userId, accessToken) ==> r == ProfileResponse(None, Some(NotConfiguredMessage))
    ensures r.profile.None? <==> r.error.Some?
    ensures r.profile.Some? ==> outcome == ProfileReceived(r.profile.value)
    ensures Configured(userId, accessToken) && outcome.ProfileReceived? ==>
              r == ProfileResponse(Some(outcome.profile), None)
    ensures Configured(userId, accessToken) && outcome.ProfileFailed? ==>
              r == ProfileResponse(None, Some(ThrownMessage(outcome.thrown, ProfileFallbackMessage)))
  {
    if !Configured(userId, accessToken) then
      ProfileResponse(None, Some(NotConfiguredMessage))
    else
      match outcome
      case ProfileReceived(profile) => ProfileResponse(Some(profile), None)
      case ProfileFailed(thrown) => ProfileResponse(None, Some(ThrownMessage(thrown, ProfileFallbackMessage)))
  }

  lemma UnconfiguredProfileIgnoresNetwork(userId: Option<string>, accessToken: Option<string>, o1: ProfileOutcome, o2: ProfileOutcome)
    requires !Configured(userId, accessToken)
    ensures FetchInstagramProfile(userId, accessToken, o1) == FetchInstagramProfile(userId, accessToken, o2)
  {
  }

  // ---------------------------------------------------------------------------
  // formatPostDate over the whole-day difference between now and the post

  datatype DateLabel = Today | Yesterday | DaysAgo(days: int) | WeeksAgo(weeks: nat) | AbsoluteDate

  /** The label chosen for a day difference; the branches are tried in the source's order. */
  function PostDateLabel(diffDays: int): (l: DateLabel)
    ensures l == Today <==> diffDays == 0
    ensures l == Yesterday <==> diffDays == 1
    ensures l.DaysAgo? <==> diffDays < 7 && diffDays != 0 && diffDays != 1
    ensures l.DaysAgo? ==> l.days == diffDays
    ensures l.WeeksAgo? <==> 7 <= diffDays < 30
    ensures l.WeeksAgo? ==> 1 <= l.weeks <= 4 && 7 * l.weeks <= diffDays < 7 * l.weeks + 7
    ensures l == AbsoluteDate <==> diffDays >= 30
  {
    if diffDays == 0 then Today
    else if diffDays == 1 then Yesterday
    else if diffDays < 7 then DaysAgo(diffDays)
    else if diffDays < 30 then WeeksAgo(diffDays / 7)
    else AbsoluteDate
  }

  /** formatPostDate: `absoluteDate` stands for the locale-formatted date of the post. */
  function FormatPostDate(diffDays: int, absoluteDate: string): (text: string)
    ensures diffDays == 0 ==> text == "Today"
    ensures diffDays == 1 ==> text == "Yesterday"
    ensures diffDays < 7 && diffDays != 0 && diffDays != 1 ==> text == IntToString(diffDays) + " days ago"
    ensures 7 <= diffDays < 30 ==> text == NatToString(diffDays / 7) + " weeks ago"
    ensures diffDays >= 30 ==> text == absoluteDate
  {
    match PostDateLabel(diffDays)
    case Today => "Today"
    case Yesterday => "Yesterday"
    case DaysAgo(d) => IntToString(d) + " days ago"
    case WeeksAgo(w) => NatToString(w) + " weeks ago"
    case AbsoluteDate => absoluteDate
  }

  /** Two day differences in the "days ago" range never render the same text. */
  lemma DaysAgoDistinguishes(d1: int, d2: int)
    requires PostDateLabel(d1).DaysAgo? && PostDateLabel(d2).DaysAgo?
    requires FormatPostDate(d1, "") == FormatPostDate(d2, "")
    ensures d1 == d2
  {
    var s1, s2 := IntToString(d1), IntToString(d2);
    var suffix := " days ago";
    assert s1 + suffix == s2 + suffix;
    assert s1 == (s1 + suffix)[..|s1 + suffix| - |suffix|];
    assert s2 == (s2 + suffix)[..|s2 + suffix| - |suffix|];
    IntToStringInjective(d1, d2);
  }

  // ---------------------------------------------------------------------------
  // expandCarouselPosts

  /** The post emitted for the k-th image child of an album. */
  function AlbumImagePost(post: Post, images: seq<Media>, k: nat): Post
    requires k < |images|
  {
    post.(id := post.id + "_" + images[k].id,
          mediaType := Image,
          mediaUrl := images[k].mediaUrl,
          carouselInfo := Some(CarouselInfo(post.id, k, |images|, MediaUrls(images))))
  }

  /** What one input post contributes to the expanded feed. */
  function ExpandPost(post: Post): (r: seq<Post>)
    ensures !IsAlbumWithChildren(post) ==> r == [post]
    ensures IsAlbumWithChildren(post) ==> |r| == |ImageChildren(post.children.value)|
  {
    if IsAlbumWithChildren(post) then
      var images := ImageChildren(post.children.value);
      seq(|images|, k requires 0 <= k < |images| => AlbumImagePost(post, images, k))
    else
      [post]
  }

  /** The expanded feed: each post's contribution, in input order. */
  function ExpandAll(posts: seq<Post>): seq<Post>
    decreases |posts|
  {
    if posts == [] then [] else ExpandPost(posts[0]) + ExpandAll(posts[1..])
  }

  lemma {:induction false} ExpandAllAppend(a: seq<Post>, b: seq<Post>)
    ensures ExpandAll(a + b) == ExpandAll(a) + ExpandAll(b)
    decreases |a|
  {
    if a == [] {
      assert a + b == b;
    } else {
      assert (a + b)[0] == a[0];
      assert (a + b)[1..] == a[1..] + b;
      ExpandAllAppend(a[1..], b);
    }
  }

  /** expandCarouselPosts: pushes each post, or each image of an album, onto `expanded`. */
  method ExpandCarouselPosts(posts: seq<Post>) returns (expanded: seq<Post>)
    ensures expanded == ExpandAll(posts)
  {
    expanded := [];
    for i := 0 to |posts|
      invariant expanded == ExpandAll(posts[..i])
    {
      var post := posts[i];
      ghost var before := expanded;
      if post.mediaType == CarouselAlbum && post.children.Some? {
        var imageChildren := ImageChildren(post.children.value);
        var allImages := MediaUrls(imageChildren);
        for index := 0 to |imageChildren|
          invariant expanded == before + ExpandPost(post)[..index]
        {
          var child := imageChildren[index];
          expanded := expanded + [post.(id := post.id + "_" + child.id,
                                        mediaType := Image,
                                        mediaUrl := child.mediaUrl,
                                        carouselInfo := Some(CarouselInfo(post.id, index, |imageChildren|, allImages)))];
          assert ExpandPost(post)[..index + 1] == ExpandPost(post)[..index] + [ExpandPost(post)[index]];
        }
        assert ExpandPost(post)[..|imageChildren|] == ExpandPost(post);
      } else {
        expanded := expanded + [post];
      }
      assert posts[..i + 1] == posts[..i] + [post];
      ExpandAllAppend(posts[..i], [post]);
      assert ExpandAll([post]) == ExpandPost(post) + ExpandAll([]);
    }
    assert posts[..|posts|] == posts;
  }

  /** How many posts one input post turns into: its image count if it is an album with children, else 1. */
  function Contribution(post: Post): nat {
    if IsAlbumWithChildren(post) then |ImageChildren(post.children.value)| else 1
  }

  function TotalContribution(posts: seq<Post>): nat
    decreases |posts|
  {
    if posts == [] then 0 else Contribution(posts[0]) + TotalContribution(posts[1..])
  }

  lemma {:induction false} ExpandAllLength(posts: seq<Post>)
    ensures |ExpandAll(posts)| == TotalContribution(posts)
    decreases |posts|
  {
    if posts != [] {
      ExpandAllLength(posts[1..]);
    }
  }

  /** The k-th post of an expanded album: its id, type, URL and back-reference, with the rest copied. */
  lemma ExpandedAlbumEntry(post: Post, k: nat)
    requires IsAlbumWithChildren(post)
    requires k < |ImageChildren(post.children.value)|
    ensures var images := ImageChildren(post.children.value);
            var e := ExpandPost(post)[k];
            && e.id == post.id + "_" + images[k].id
            && e.mediaType == Image
            && e.mediaUrl == images[k].mediaUrl
            && e.carouselInfo == Some(CarouselInfo(post.id, k, |images|, MediaUrls(images)))
            && e.caption == post.caption
            && e.thumbnailUrl == post.thumbnailUrl
            && e.permalink == post.permalink
            && e.timestamp == post.timestamp
            && e.children == post.children
  {
  }

  /** The siblings of one album carry the album's image URLs in order: the i-th entry of
      `allImages` is the URL of the i-th sibling, so the carousel can be rebuilt from any of them. */
  lemma SiblingsReconstructAlbum(post: Post, k: nat)
    requires IsAlbumWithChildren(post)
    requires k < |ExpandPost(post)|
    ensures var r := ExpandPost(post);
            var info := r[k].carouselInfo.value;
            && info.parentId == post.id
            && info.totalImages == |r|
            && |info.allImages| == |r|
            && forall i :: 0 <= i < |r| ==> info.allImages[i] == r[i].mediaUrl
  {
    var images := ImageChildren(post.children.value);
    var r := ExpandPost(post);
    forall i | 0 <= i < |r| ensures r[k].carouselInfo.value.allImages[i] == r[i].mediaUrl {
      assert r[i] == AlbumImagePost(post, images, i);
    }
  }

  /** An album whose children are all videos contributes nothing. */
  lemma AllVideoAlbumVanishes(post: Post)
    requires IsAlbumWithChildren(post)
    requires forall m :: m in post.children.value ==> m.mediaType == Video
    ensures ExpandPost(post) == []
  {
    NoImageChildren(post.children.value);
  }

  lemma {:induction false} NoImageChildren(children: seq<Media>)
    requires forall m :: m in children ==> m.mediaType == Video
    ensures ImageChildren(children) == []
    decreases |children|
  {
    if children != [] {
      assert children[0] in children;
      NoImageChildren(children[1..]);
    }
  }
}
