/** The Instagram-style profile grid: the post count it displays and, per
    post, the tile image, the carousel badge and the click/key handling. */
module InstagramProfile {
  import opened Js
  import opened Instagram
  import PostDisplayer
  import Lightbox

  datatype Stats = Stats(posts: Option<int>, followers: Option<int>, following: Option<int>)

  /** `stats?.posts ?? posts.length`: only a missing value falls back, 0 does not. */
  function DisplayPostCount(stats: Option<Stats>, posts: seq<Post>): (count: int)
    ensures stats.Some? && stats.value.posts.Some? ==> count == stats.value.posts.value
    ensures stats.None? || stats.value.posts.None? ==> count == |posts|
  {
    if stats.Some? && stats.value.posts.Some? then stats.value.posts.value else |posts|
  }

  /** The number of image children, 0 when the post has no children list. */
  function CarouselTotal(post: Post): (n: nat)
    ensures post.children.None? ==> n == 0
    ensures post.children.Some? ==> n == |ImageChildren(post.children.value)|
  {
    if post.children.Some? then |ImageChildren(post.children.value)| else 0
  }

  /** `children.find(c => c.media_type === 'IMAGE')`. */
  function FirstImage(children: seq<Media>): (first: Option<Media>)
    ensures first.None? <==> ImageChildren(children) == []
    ensures first.Some? ==> first.value == ImageChildren(children)[0]
    decreases |children|
  {
    if children == [] then None
    else if children[0].mediaType == Image then Some(children[0])
    else FirstImage(children[1..])
  }

  /** getImageUrl: the first image child's URL for an album with children, falling back to
      the post's own URL; any other post uses its own URL. */
  function TileImageUrl(post: Post): (url: string)
    ensures url == PostDisplayer.CurrentImageUrl(post, 0)
  {
    if post.mediaType == CarouselAlbum && post.children.Some? then
      var first := FirstImage(post.children.value);
      if first.Some? then OrElse(Some(first.value.mediaUrl), post.mediaUrl) else post.mediaUrl
    else
      post.mediaUrl
  }

  /** The carousel badge: albums with more than one image child. */
  predicate BadgeVisible(post: Post) {
    post.mediaType == CarouselAlbum && CarouselTotal(post) > 1
  }

  /** The grid badge and the lightbox indicator (at its default position) agree. */
  lemma BadgeAgreesWithLightbox(post: Post)
    ensures BadgeVisible(post) <==> Lightbox.IndicatorVisible(Lightbox.CarouselInfoOf(Some(post), 0))
  {
  }

  /** Enter and Space activate a tile; other keys do not. */
  predicate ActivatesTile(key: string) {
    key == "Enter" || key == " "
  }

  /** handlePostClick: the calls made to the optional onPostClick prop. */
  function HandlePostClick(hasOnPostClick: bool, post: Post): (calls: seq<Post>)
    ensures hasOnPostClick ==> calls == [post]
    ensures !hasOnPostClick ==> calls == []
  {
    if hasOnPostClick then [post] else []
  }

  /** The calls a key press on a tile makes. */
  function HandleTileKey(key: string, hasOnPostClick: bool, post: Post): (calls: seq<Post>)
    ensures |calls| <= 1
    ensures calls != [] <==> ActivatesTile(key) && hasOnPostClick
    ensures calls != [] ==> calls[0] == post
  {
    if ActivatesTile(key) then HandlePostClick(hasOnPostClick, post) else []
  }

  datatype Tile = Tile(key: string, imageUrl: string, alt: string, badge: Option<nat>)

  function TileFor(post: Post): Tile {
    Tile(post.id, TileImageUrl(post), OrElse(post.caption, "Photo"),
         if BadgeVisible(post) then Some(CarouselTotal(post)) else None)
  }

  /** The grid: one tile per post, in the order of `posts`. */
  function Tiles(posts: seq<Post>): (tiles: seq<Tile>)
    ensures |tiles| == |posts|
    ensures forall i :: 0 <= i < |posts| ==> tiles[i] == TileFor(posts[i])
  {
    seq(|posts|, i requires 0 <= i < |posts| => TileFor(posts[i]))
  }
}
