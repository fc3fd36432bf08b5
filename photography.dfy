/** The Photography page: its state (feed, loading flag, error, lightbox
    selection, layout, account name), the transitions its handlers make, and
    which section it renders for a given state. */
module Photography {
  import opened Js
  import opened Instagram

  datatype ViewMode = Bento | ProfileView
  datatype Direction = Next | Prev

  const DefaultUsername: string := "nasrultakesphotos"

  // ---------------------------------------------------------------------------
  // Lightbox navigation over the feed.

  /** Ids are unique within a feed. */
  predicate UniqueIds(posts: seq<Post>) {
    forall i, j :: 0 <= i < j < |posts| ==> posts[i].id != posts[j].id
  }

  /** `posts.findIndex(p => p.id === id)`: the first position with that id, or -1. */
  function FindIndex(posts: seq<Post>, id: string): (r: int)
    ensures -1 <= r < |posts|
    ensures r >= 0 ==> posts[r].id == id && forall j :: 0 <= j < r ==> posts[j].id != id
    ensures r == -1 <==> forall j :: 0 <= j < |posts| ==> posts[j].id != id
    decreases |posts|
  {
    if posts == [] then -1
    else if posts[0].id == id then 0
    else
      var rest := FindIndex(posts[1..], id);
      if rest == -1 then -1 else rest + 1
  }

  /** In a feed with unique ids a post's id is found at that post's position. */
  lemma {:induction false} FindIndexOfMember(posts: seq<Post>, i: nat)
    requires UniqueIds(posts)
    requires i < |posts|
    ensures FindIndex(posts, posts[i].id) == i
  {
    var r := FindIndex(posts, posts[i].id);
    assert r >= 0;
  }

  /** The new position: one step forward or back around the ring of n posts, with the
      JavaScript `%`. A selection that is not in the feed (position -1) moves to the
      first post on next and to position n - 2 (or 0 for a single post) on prev. */
  function NavigateIndex(current: int, n: int, dir: Direction): (r: int)
    requires n > 0
    requires -1 <= current < n
    ensures 0 <= r < n
    ensures dir == Next && current < n - 1 ==> r == current + 1
    ensures dir == Next && current == n - 1 ==> r == 0
    ensures dir == Prev && current >= 1 ==> r == current - 1
    ensures dir == Prev && current == 0 ==> r == n - 1
    ensures dir == Prev && current == -1 ==> r == (if n >= 2 then n - 2 else 0)
  {
    var a := if dir == Next then current + 1 else current - 1 + n;
    RemAroundRing(a, n);
    Rem(a, n)
  }

  /** Rem on the values one ring step can produce. */
  lemma RemAroundRing(a: int, n: int)
    requires n > 0
    requires -n <= a < 2 * n
    ensures 0 <= a < n ==> Rem(a, n) == a
    ensures n <= a ==> Rem(a, n) == a - n
    ensures a == -n ==> Rem(a, n) == 0
  {
    if n <= a {
      ModOfShift(a - n, n);
    } else if a == -n {
      ModOfShift(0, n);
    }
  }

  lemma ModOfShift(r: int, n: int)
    requires n > 0 && 0 <= r < n
    ensures (r + n) % n == r
  {
  }

  /** navigateLightbox: nothing happens without a selection; an empty feed leaves
      the lightbox without a post (`posts[NaN]`); otherwise the neighbour of the
      selected post's position. */
  function Navigate(posts: seq<Post>, selected: Option<Post>, dir: Direction): (r: Option<Post>)
    ensures selected.None? ==> r.None?
    ensures selected.Some? && |posts| == 0 ==> r.None?
    ensures selected.Some? && |posts| > 0 ==> r.Some? && r.value in posts
    ensures selected.Some? && |posts| > 0 ==>
              r == Some(posts[NavigateIndex(FindIndex(posts, selected.value.id), |posts|, dir)])
  {
    if selected.None? then selected
    else if |posts| == 0 then None
    else Some(posts[NavigateIndex(FindIndex(posts, selected.value.id), |posts|, dir)])
  }

  /** Prev undoes Next on a feed with unique ids. */
  lemma NextThenPrev(posts: seq<Post>, i: nat)
    requires UniqueIds(posts)
    requires i < |posts|
    ensures Navigate(posts, Navigate(posts, Some(posts[i]), Next), Prev) == Some(posts[i])
  {
    FindIndexOfMember(posts, i);
    var j := NavigateIndex(i, |posts|, Next);
    FindIndexOfMember(posts, j);
  }

  /** Next undoes Prev on a feed with unique ids. */
  lemma PrevThenNext(posts: seq<Post>, i: nat)
    requires UniqueIds(posts)
    requires i < |posts|
    ensures Navigate(posts, Navigate(posts, Some(posts[i]), Prev), Next) == Some(posts[i])
  {
    FindIndexOfMember(posts, i);
    var j := NavigateIndex(i, |posts|, Prev);
    FindIndexOfMember(posts, j);
  }

  /** Next from the last post wraps to the first. */
  lemma NextWrapsAround(posts: seq<Post>)
    requires UniqueIds(posts)
    requires |posts| > 0
    ensures Navigate(posts, Some(posts[|posts| - 1]), Next) == Some(posts[0])
  {
    FindIndexOfMember(posts, |posts| - 1);
  }

  /** A selection whose id is no longer in the feed moves to the first post on Next. */
  lemma StaleSelectionNextIsFirst(posts: seq<Post>, stale: Post)
    requires |posts| > 0
    requires forall j :: 0 <= j < |posts| ==> posts[j].id != stale.id
    ensures Navigate(posts, Some(stale), Next) == Some(posts[0])
  {
  }

  // ---------------------------------------------------------------------------
  // Which section the page renders.

  datatype Section = Skeleton | ErrorMessage | Content | EmptyMessage

  /** The page shows exactly one of its four sections: the skeleton while loading,
      then the error when there is one, then the grid or the "No photos yet." note. */
  function SectionFor(loading: bool, error: Option<string>, postCount: nat): (s: Section)
    ensures s == Skeleton <==> loading
    ensures s == ErrorMessage <==> !loading && Truthy(error)
    ensures s == Content <==> !loading && !Truthy(error) && postCount > 0
    ensures s == EmptyMessage <==> !loading && !Truthy(error) && postCount == 0
  {
    if loading then Skeleton
    else if Truthy(error) then ErrorMessage
    else if postCount > 0 then Content
    else EmptyMessage
  }

  /** The bento card's alt text: the caption when non-empty, else "Photography". */
  function CardAlt(post: Post): (alt: string)
    ensures Truthy(post.caption) ==> alt == post.caption.value
    ensures !Truthy(post.caption) ==> alt == "Photography"
  {
    OrElse(post.caption, "Photography")
  }

  /** The bento card's title: the first 50 characters of the caption, if any. */
  function CardTitle(post: Post): (title: Option<string>)
    ensures title.None? <==> post.caption.None?
    ensures title.Some? ==> |title.value| <= 50 && title.value <= post.caption.value
    ensures title.Some? && |post.caption.value| <= 50 ==> title.value == post.caption.value
    ensures title.Some? && |post.caption.value| > 50 ==> |title.value| == 50
  {
    if post.caption.None? then None
    else Some(post.caption.value[..Min(50, |post.caption.value|)])
  }

  /** The header's link to the account. */
  function ProfileLink(username: string): (url: string)
    ensures |url| == 22 + |username|
    ensures url[..22] == "https://instagram.com/" && url[22..] == username
  {
    "https://instagram.com/" + username
  }

  // ---------------------------------------------------------------------------
  // The page's state and its handlers.

  class PhotographyPage {
    var posts: seq<Post>
    var loading: bool
    var error: Option<string>
    var selectedPost: Option<Post>
    var lightboxOpen: bool
    var viewMode: ViewMode
    var username: string

    /** The state before the first load completes. */
    constructor()
      ensures posts == [] && loading && error.None? && selectedPost.None?
      ensures !lightboxOpen && viewMode == ProfileView && username == DefaultUsername
    {
      posts := [];
      loading := true;
      error := None;
      selectedPost := None;
      lightboxOpen := false;
      viewMode := ProfileView;
      username := DefaultUsername;
    }

    function Section(): Section
      reads this
    {
      SectionFor(loading, error, |posts|)
    }

    /** The start of loadData. */
    method BeginLoad()
      modifies this
      ensures loading
      ensures posts == old(posts) && error == old(error) && username == old(username)
      ensures selectedPost == old(selectedPost) && lightboxOpen == old(lightboxOpen) && viewMode == old(viewMode)
    {
      loading := true;
    }

    /** The end of loadData, given both responses: a truthy error is stored and the feed
        kept, otherwise the feed is replaced; the account name changes only for a profile
        with a non-empty username; loading ends either way. */
    method CompleteLoad(postsResult: FeedResponse, profileResult: ProfileResponse)
      modifies this
      ensures !loading
      ensures Truthy(postsResult.error) ==> error == postsResult.error && posts == old(posts)
      ensures !Truthy(postsResult.error) ==> error == old(error) && posts == postsResult.posts
      ensures profileResult.profile.Some? && Truthy(profileResult.profile.value.username) ==>
                username == profileResult.profile.value.username.value
      ensures !(profileResult.profile.Some? && Truthy(profileResult.profile.value.username)) ==>
                username == old(username)
      ensures selectedPost == old(selectedPost) && lightboxOpen == old(lightboxOpen) && viewMode == old(viewMode)
    {
      if Truthy(postsResult.error) {
        error := postsResult.error;
      } else {
        posts := postsResult.posts;
      }
      if profileResult.profile.Some? {
        if Truthy(profileResult.profile.value.username) {
          username := profileResult.profile.value.username.value;
        }
      }
      loading := false;
    }

    /** loadData with the credentials and both request outcomes as inputs. Without
        credentials the page ends on the configuration message, whatever the network. */
    method LoadData(userId: Option<string>, accessToken: Option<string>,
                    feed: FeedOutcome, profile: ProfileOutcome)
      modifies this
      ensures !loading
      ensures !Configured(userId, accessToken) ==>
                error == Some(NotConfiguredMessage) && posts == old(posts) && username == old(username)
      ensures !Configured(userId, accessToken) ==> Section() == ErrorMessage
      ensures FetchInstagramPosts(userId, accessToken, feed).error.None? ==>
                posts == FetchInstagramPosts(userId, accessToken, feed).posts && error == old(error)
      ensures Truthy(FetchInstagramPosts(userId, accessToken, feed).error) ==>
                error == FetchInstagramPosts(userId, accessToken, feed).error && posts == old(posts)
      ensures !Truthy(FetchInstagramPosts(userId, accessToken, feed).error) ==>
                error == old(error) && posts == FetchInstagramPosts(userId, accessToken, feed).posts
      ensures Configured(userId, accessToken) && feed.FeedFailed? && feed.thrown.None? ==>
                error == Some(FeedFallbackMessage) && posts == old(posts)
      ensures forall p :: p in posts && p !in old(posts) ==> Displayable(p)
      ensures Configured(userId, accessToken) && profile.ProfileReceived? && Truthy(profile.profile.username) ==>
                username == profile.profile.username.value
      ensures !(Configured(userId, accessToken) && profile.ProfileReceived? && Truthy(profile.profile.username)) ==>
                username == old(username)
      ensures selectedPost == old(selectedPost) && lightboxOpen == old(lightboxOpen) && viewMode == old(viewMode)
    {
      BeginLoad();
      var postsResult := FetchInstagramPosts(userId, accessToken, feed);
      var profileResult := FetchInstagramProfile(userId, accessToken, profile);
      CompleteLoad(postsResult, profileResult);
    }

    /** openLightbox: select the post and show the overlay. */
    method OpenLightbox(post: Post)
      modifies this
      ensures selectedPost == Some(post) && lightboxOpen
      ensures posts == old(posts) && loading == old(loading) && error == old(error)
      ensures viewMode == old(viewMode) && username == old(username)
    {
      selectedPost := Some(post);
      lightboxOpen := true;
    }

    /** closeLightbox: hide the overlay at once; the selection stays until the timer fires. */
    method CloseLightbox()
      modifies this
      ensures !lightboxOpen
      ensures selectedPost == old(selectedPost)
      ensures posts == old(posts) && loading == old(loading) && error == old(error)
      ensures viewMode == old(viewMode) && username == old(username)
    {
      lightboxOpen := false;
    }

    /** The delayed callback closeLightbox schedules. */
    method ClearSelectionAfterClose()
      modifies this
      ensures selectedPost.None?
      ensures lightboxOpen == old(lightboxOpen)
      ensures posts == old(posts) && loading == old(loading) && error == old(error)
      ensures viewMode == old(viewMode) && username == old(username)
    {
      selectedPost := None;
    }

    /** The Grid / Profile toggle. */
    method SetViewMode(mode: ViewMode)
      modifies this
      ensures viewMode == mode
      ensures selectedPost == old(selectedPost) && lightboxOpen == old(lightboxOpen)
      ensures posts == old(posts) && loading == old(loading) && error == old(error)
      ensures username == old(username)
    {
      viewMode := mode;
    }

    /** navigateLightbox: move the selection to the neighbouring post. */
    method NavigateLightbox(dir: Direction)
      modifies this
      ensures selectedPost == Navigate(old(posts), old(selectedPost), dir)
      ensures lightboxOpen == old(lightboxOpen)
      ensures posts == old(posts) && loading == old(loading) && error == old(error)
      ensures viewMode == old(viewMode) && username == old(username)
    {
      if selectedPost.None? {
        return;
      }
      var currentIndex := FindIndex(posts, selectedPost.value.id);
      if |posts| == 0 {
        selectedPost := None;
      } else {
        var newIndex := NavigateIndex(currentIndex, |posts|, dir);
        selectedPost := Some(posts[newIndex]);
      }
    }
  }
}
