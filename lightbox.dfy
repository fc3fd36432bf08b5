/** The full-screen image viewer: the image it shows, its "current / total"
    indicator, its keyboard dispatch and when it is rendered at all. */
module Lightbox {
  import opened Js
  import opened Instagram
  import PostDisplayer

  /** getCurrentImageUrl: "" without a post, else the detail card's rule. */
  function CurrentImageUrl(post: Option<Post>, carouselIndex: int): (url: string)
    ensures post.None? ==> url == ""
    ensures post.Some? && !IsAlbumWithChildren(post.value) ==> url == post.value.mediaUrl
    ensures post.Some? ==> url == PostDisplayer.CurrentImageUrl(post.value, carouselIndex)
  {
    if post.None? then "" else PostDisplayer.CurrentImageUrl(post.value, carouselIndex)
  }

  datatype Indicator = Indicator(current: int, total: nat, hasMultiple: bool)

  /** getCarouselInfo: position (1-based) and image count for an album with children. */
  function CarouselInfoOf(post: Option<Post>, carouselIndex: int): (info: Option<Indicator>)
    ensures info.Some? <==> post.Some? && IsAlbumWithChildren(post.value)
    ensures info.Some? ==> info.value.current == carouselIndex + 1
    ensures info.Some? ==> info.value.total == |ImageChildren(post.value.children.value)|
    ensures info.Some? ==> (info.value.hasMultiple <==> info.value.total > 1)
  {
    if post.Some? && IsAlbumWithChildren(post.value) then
      var images := ImageChildren(post.value.children.value);
      Some(Indicator(carouselIndex + 1, |images|, |images| > 1))
    else
      None
  }

  /** The indicator is rendered only for albums with more than one image child. */
  predicate IndicatorVisible(info: Option<Indicator>) {
    info.Some? && info.value.hasMultiple
  }

  /** For the k-th post of a flattened album, the indicator agrees with its back-reference. */
  lemma IndicatorMatchesExpansion(post: Post, k: nat)
    requires IsAlbumWithChildren(post)
    requires k < |ExpandPost(post)|
    ensures var info := CarouselInfoOf(Some(post), k).value;
            var back := ExpandPost(post)[k].carouselInfo.value;
            info.current == back.currentIndex + 1 && info.total == back.totalImages
  {
    ExpandedAlbumEntry(post, k);
  }

  /** The lightbox counts images and the detail card counts all children, so the
      lightbox indicator implies the card's badge but not the reverse. */
  lemma IndicatorImpliesDetailBadge(post: Post, carouselIndex: int)
    requires IndicatorVisible(CarouselInfoOf(Some(post), carouselIndex))
    ensures PostDisplayer.BadgeVisible(PostDisplayer.CarouselInfoOf(post, carouselIndex))
  {
  }

  /** The overlay is rendered only when open and given a post. */
  predicate OverlayVisible(isOpen: bool, post: Option<Post>) {
    isOpen && post.Some?
  }

  datatype Callback = OnClose | OnNext | OnPrev

  /** handleKeyDown: the callbacks one key press invokes, in order; onNext and onPrev are
      optional props. */
  function HandleKeyDown(key: string, hasOnNext: bool, hasOnPrev: bool): (calls: seq<Callback>)
    ensures |calls| <= 1
    ensures OnClose in calls <==> key == "Escape"
    ensures OnNext in calls <==> key == "ArrowRight" && hasOnNext
    ensures OnPrev in calls <==> key == "ArrowLeft" && hasOnPrev
  {
    (if key == "Escape" then [OnClose] else [])
    + (if key == "ArrowRight" && hasOnNext then [OnNext] else [])
    + (if key == "ArrowLeft" && hasOnPrev then [OnPrev] else [])
  }
}
