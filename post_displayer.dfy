/** The post detail card: which image it shows for a carousel position, the
    carousel details it lists, and the conditions on its labels. */
module PostDisplayer {
  import opened Js
  import opened Instagram

  /** getCurrentImageUrl: for an album with children, the `carouselIndex`-th image child's
      URL (videos skipped), falling back to the post's own URL when that position holds no
      image or its URL is empty; any other post shows its own URL. */
  function CurrentImageUrl(post: Post, carouselIndex: int): (url: string)
    ensures !IsAlbumWithChildren(post) ==> url == post.mediaUrl
    ensures IsAlbumWithChildren(post) ==>
              var images := ImageChildren(post.children.value);
              if 0 <= carouselIndex < |images| && images[carouselIndex].mediaUrl != ""
              then url == images[carouselIndex].mediaUrl
              else url == post.mediaUrl
  {
    if IsAlbumWithChildren(post) then
      var images := ImageChildren(post.children.value);
      if 0 <= carouselIndex < |images| then
        OrElse(Some(images[carouselIndex].mediaUrl), post.mediaUrl)
      else
        post.mediaUrl
    else
      post.mediaUrl
  }

  /** Showing position k of an album shows the URL the flattened feed gives its k-th post
      (when that URL is non-empty). */
  lemma CurrentImageMatchesExpansion(post: Post, k: nat)
    requires IsAlbumWithChildren(post)
    requires k < |ExpandPost(post)|
    requires ExpandPost(post)[k].mediaUrl != ""
    ensures CurrentImageUrl(post, k) == ExpandPost(post)[k].mediaUrl
  {
    ExpandedAlbumEntry(post, k);
  }

  datatype CarouselDetails = CarouselDetails(
    totalImages: nat,
    totalVideos: nat,
    totalItems: nat,
    currentIndex: int,
    hasMultiple: bool,
    allImages: seq<Media>)

  /** getCarouselInfo: counts over all children for an album with children, else null. */
  function CarouselInfoOf(post: Post, carouselIndex: int): (info: Option<CarouselDetails>)
    ensures info.Some? <==> IsAlbumWithChildren(post)
    ensures info.Some? ==> info.value.totalImages + info.value.totalVideos == info.value.totalItems
    ensures info.Some? ==> info.value.totalItems == |post.children.value|
    ensures info.Some? ==> (info.value.hasMultiple <==> |post.children.value| > 1)
    ensures info.Some? ==> info.value.allImages == ImageChildren(post.children.value)
    ensures info.Some? ==> info.value.totalImages == |info.value.allImages|
    ensures info.Some? ==> info.value.currentIndex == carouselIndex
  {
    if IsAlbumWithChildren(post) then
      var children := post.children.value;
      var images := ImageChildren(children);
      var videos := VideoChildren(children);
      ImagesAndVideosPartition(children);
      Some(CarouselDetails(|images|, |videos|, |children|, carouselIndex, |children| > 1, images))
    else
      None
  }

  /** The "i / n" badge shows when the album has more than one child, videos included. */
  predicate BadgeVisible(info: Option<CarouselDetails>) {
    info.Some? && info.value.hasMultiple
  }

  /** The Videos entry of the details grid. */
  predicate VideosEntryVisible(info: CarouselDetails) {
    info.totalVideos > 0
  }

  /** The Videos entry appears exactly for albums holding at least one video. */
  lemma VideosEntryIffVideoChild(post: Post, carouselIndex: int)
    requires IsAlbumWithChildren(post)
    ensures VideosEntryVisible(CarouselInfoOf(post, carouselIndex).value) <==>
              exists m :: m in post.children.value && m.mediaType == Video
  {
    var videos := VideoChildren(post.children.value);
    if |videos| > 0 {
      assert videos[0] in videos;
    }
  }

  /** The thumbnails marked "Current": those whose position equals `currentIndex`. */
  function CurrentThumbnails(info: CarouselDetails): (marked: set<int>)
    ensures |marked| <= 1
    ensures forall i :: i in marked <==> 0 <= i < |info.allImages| && i == info.currentIndex
  {
    if 0 <= info.currentIndex < |info.allImages| then {info.currentIndex} else {}
  }

  /** The media-type badge label. */
  function MediaTypeLabel(post: Post): (text: string)
    ensures text == "Carousel Album" <==> post.mediaType == CarouselAlbum
    ensures text == "Single Image" <==> post.mediaType != CarouselAlbum
  {
    if post.mediaType == CarouselAlbum then "Carousel Album" else "Single Image"
  }
}
