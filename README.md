# Portfolio site decision rules, modelled in Dafny

This project models the decision logic of a personal portfolio single-page
application (React/TypeScript). The site has a photography page fed by the
Instagram Graph API and a writing section built from MDX documents. The model covers:

- **Instagram post shaping** (`Instagram`): the credential guard and feed filter of
  `fetchInstagramPosts` / `fetchInstagramProfile`, the relative-date buckets of
  `formatPostDate`, and `expandCarouselPosts`, which flattens multi-image albums
  into one post per image with a back-reference to the album.
- **Carousel view helpers** (`PostDisplayer`, `Lightbox`, `InstagramProfile`): which
  image URL is shown for a carousel position, image/video counts, when the
  "multiple" badges, the "Current" thumbnail and the Videos entry appear, and
  keyboard/click dispatch.
- **The Photography page** (`Photography`): a class holding the page's seven state
  slots, with methods for loading, opening/closing the lightbox, switching
  layout and cyclic next/prev navigation with JavaScript's `%`.
- **Writing content derivation** (`Documents`, `ContentCollections`, `Metadata`):
  schema validation (all-or-nothing), slug, word count, the schema.org
  `BlogPosting` object, and the three syntax-highlighter callbacks that edit tree
  nodes in place (a class with `modifies` clauses).
- **Writing index and routing** (`Writing`, `Home`, `WritingPost`, `Navbar`,
  `MdxComponents`, `BentoGrid`): the newest-first stable ordering, the top-3
  slice, slug lookup with the /404 redirects, edit and loader URLs, active-link
  prefix matching, the theme toggle, MDX link classification, and the bento
  grid's span cycling and class lists.

`Js` collects the JavaScript conventions the code relies on: truthiness of
optional strings, `a || b`, the truncating `%`, and `${n}` rendering of numbers
(with a proof that the rendering can be read back).

Environment and outside inputs are parameters:
- the two credential environment variables;
- the outcome of each HTTP request;
- the whole-day difference and the locale-formatted date in `formatPostDate`;
- the millisecond value of each date string (`time`) in the writing sort;
- the set of MDX modules found by Vite's glob import.

Notes on what the code does:

- the canonical `url` in the JSON-LD is built from `_meta.path`, not from the slug;
- the word count is the length of `split(/\s+/g)`, which is 1 + the number of
  whitespace runs. So an empty body counts 1, and leading or trailing whitespace adds an empty token;
- the image fallback applies to an empty `image` string: the schema requires the field to be present;
- the body reaches both configurations as `content`; declaring it in the schema (`metadata.ts`)
  validates the body, which is always a string, so both configurations admit the same files;
- slug uniqueness is not enforced anywhere: lookup returns the first match.

## Model

| member | source | states |
|---|---|---|
| Js.Rem | src/pages/Photography.tsx:89-90 | JavaScript `%` with a positive divisor: Euclidean for non-negative operands; for a negative operand a result in (-b, 0] whose negation is the remainder of the magnitude |
| Js.NatToString | src/lib/instagram.ts:114 | `${n}` of a natural: at least one character, all decimal digits, no leading zero |
| Js.NatToStringRoundTrip | src/lib/instagram.ts:114 | reading the rendered digits back yields the number |
| Js.IntToString | src/lib/instagram.ts:113 | `${d}` of an integer is non-empty |
| Js.IntToStringInjective | src/lib/instagram.ts:113 | distinct integers render differently |
| Instagram.ImageChildren | src/lib/instagram.ts:133-135 | the children kept are exactly the IMAGE ones, never more than the input |
| Instagram.VideoChildren | src/components/PostDisplayer.tsx:39 | the children kept are exactly the VIDEO ones |
| Instagram.ImageChildrenAppend | src/lib/instagram.ts:133-135 | the image filter distributes over concatenation, so image children keep their order and multiplicity |
| Instagram.VideoChildrenAppend | src/components/PostDisplayer.tsx:39 | the video filter distributes over concatenation, so video children keep their order and multiplicity |
| Instagram.ImagesAndVideosPartition | src/lib/instagram.ts:33-37 | children are typed IMAGE or VIDEO, so the two counts add up to the child count |
| Instagram.MediaUrls | src/lib/instagram.ts:149 | `allImages` lists each image's URL at that image's position |
| Instagram.KeepDisplayable | src/lib/instagram.ts:89-91 | the feed keeps exactly the IMAGE and CAROUSEL_ALBUM items |
| Instagram.KeepDisplayableAppend | src/lib/instagram.ts:89-91 | the filter distributes over concatenation, so kept items stay in input order |
| Instagram.KeepDisplayableIdentity | src/lib/instagram.ts:89-91 | a feed without videos passes unchanged |
| Instagram.FetchInstagramPosts | src/lib/instagram.ts:65-101 | missing credentials give no posts and the configuration message; an error occurs iff unconfigured or the request failed, and then there are no posts; a failure gives the thrown message or the fallback; otherwise the posts are exactly the displayable items in received order, none when `data` is missing |
| Instagram.UnconfiguredFeedIgnoresNetwork | src/lib/instagram.ts:66-72 | without credentials the result does not depend on any network outcome, so no request matters |
| Instagram.FetchInstagramProfile | src/lib/instagram.ts:167-202 | unconfigured gives a null profile and the configuration message; the profile is null iff there is an error; configured, a received profile is returned with no error, and a failure gives a null profile with the thrown message or the fallback |
| Instagram.UnconfiguredProfileIgnoresNetwork | src/lib/instagram.ts:168-174 | without credentials the profile result does not depend on the network |
| Instagram.PostDateLabel | src/lib/instagram.ts:111-116 | buckets: 0 Today, 1 Yesterday, any other d < 7 (negative included) days ago, 7..29 weeks ago with 7w <= d < 7w+7 and 1 <= w <= 4, 30 and over absolute date |
| Instagram.FormatPostDate | src/lib/instagram.ts:106-121 | the text of each bucket: "Today", "Yesterday", "d days ago", "floor(d/7) weeks ago" or the formatted date |
| Instagram.DaysAgoDistinguishes | src/lib/instagram.ts:113 | two "days ago" texts are equal only for the same day difference |
| Instagram.ExpandPost | src/lib/instagram.ts:131-156 | a non-album or an album without children passes through unchanged; an album yields one post per image child |
| Instagram.ExpandAllAppend | src/lib/instagram.ts:130-157 | expansion distributes over concatenation: output order follows input order |
| Instagram.ExpandCarouselPosts | src/lib/instagram.ts:127-160 | the loop that pushes posts produces exactly the concatenation of each post's contribution, in input order |
| Instagram.ExpandAllLength | src/lib/instagram.ts:128-159 | output length is the sum of contributions: N image children for an album with children, 1 otherwise |
| Instagram.ExpandedAlbumEntry | src/lib/instagram.ts:139-147 | the k-th expanded post has id parent_child, type IMAGE, the child's URL, back-reference (parent id, k, N, all URLs); other fields are copied |
| Instagram.SiblingsReconstructAlbum | src/lib/instagram.ts:145-149 | every sibling carries the parent id, N equal to the sibling count, and `allImages[i]` equal to the i-th sibling's URL |
| Instagram.AllVideoAlbumVanishes | src/lib/instagram.ts:133-138 | an album whose children are all videos contributes nothing |
| PostDisplayer.CurrentImageUrl | src/components/PostDisplayer.tsx:26-33 | for an album with children, the image at `carouselIndex` (videos skipped) when it exists and its URL is non-empty, else the post's URL; other posts show their own URL |
| PostDisplayer.CurrentImageMatchesExpansion | src/components/PostDisplayer.tsx:26-33 | position k of an album shows the URL of the k-th flattened post |
| PostDisplayer.CarouselInfoOf | src/components/PostDisplayer.tsx:36-50 | null unless an album with children; images + videos = items = child count; hasMultiple iff more than one child (videos count); allImages are the image children in order |
| PostDisplayer.VideosEntryIffVideoChild | src/components/PostDisplayer.tsx:157 | the Videos entry shows iff the album has a video child |
| PostDisplayer.CurrentThumbnails | src/components/PostDisplayer.tsx:206-216 | at most one thumbnail is marked Current, the one at `currentIndex` if it is in range |
| PostDisplayer.MediaTypeLabel | src/components/PostDisplayer.tsx:139 | "Carousel Album" iff the post is an album, else "Single Image" |
| Lightbox.CurrentImageUrl | src/components/Lightbox.tsx:29-39 | "" without a post, otherwise the same rule as the detail card |
| Lightbox.CarouselInfoOf | src/components/Lightbox.tsx:41-51 | present iff the post is an album with children; current = index + 1, total = image count, hasMultiple iff total > 1 |
| Lightbox.IndicatorMatchesExpansion | src/components/Lightbox.tsx:41-51 | for a flattened album post the indicator shows its back-reference position + 1 and image total |
| Lightbox.IndicatorImpliesDetailBadge | src/components/Lightbox.tsx:104 | the lightbox indicator (images > 1) implies the detail card's badge (children > 1) |
| Lightbox.HandleKeyDown | src/components/Lightbox.tsx:55-59 | at most one callback; onClose iff Escape, onNext iff ArrowRight with a handler, onPrev iff ArrowLeft with a handler |
| InstagramProfile.DisplayPostCount | src/components/InstagramProfile.tsx:40 | `stats.posts` when defined (0 included), else the number of posts |
| InstagramProfile.CarouselTotal | src/components/InstagramProfile.tsx:104 | the image-child count, 0 without a children list |
| InstagramProfile.FirstImage | src/components/InstagramProfile.tsx:109 | `find` returns the first image child, and nothing iff there is none |
| InstagramProfile.TileImageUrl | src/components/InstagramProfile.tsx:107-113 | the tile shows what the detail card shows at position 0 |
| InstagramProfile.BadgeAgreesWithLightbox | src/components/InstagramProfile.tsx:141 | the grid badge shows iff the lightbox indicator would at position 0 |
| InstagramProfile.HandlePostClick | src/components/InstagramProfile.tsx:33-37 | the post is passed to onPostClick exactly when that handler is given |
| InstagramProfile.HandleTileKey | src/components/InstagramProfile.tsx:125-130 | a key clicks the tile iff it is Enter or Space and a handler is given |
| InstagramProfile.Tiles | src/components/InstagramProfile.tsx:101-122 | one tile per post, in the order of `posts` |
| Photography.FindIndex | src/pages/Photography.tsx:87 | the first position holding the id, or -1 iff no post has it |
| Photography.FindIndexOfMember | src/pages/Photography.tsx:87 | with unique ids, a post's id is found at its own position |
| Photography.NavigateIndex | src/pages/Photography.tsx:88-90 | the new index is in [0, n): next steps forward and wraps at the end, prev steps back and wraps at 0, a missing selection goes to 0 on next and to n-2 (0 for n = 1) on prev |
| Photography.Navigate | src/pages/Photography.tsx:85-92 | no selection stays unselected; an empty feed leaves no post; otherwise the post at the position `NavigateIndex` gives for the selected id's first position |
| Photography.NextThenPrev | src/pages/Photography.tsx:88-91 | with unique ids, next then prev returns to the selected post |
| Photography.PrevThenNext | src/pages/Photography.tsx:88-91 | with unique ids, prev then next returns to the selected post |
| Photography.NextWrapsAround | src/pages/Photography.tsx:89 | next from the last post selects the first |
| Photography.StaleSelectionNextIsFirst | src/pages/Photography.tsx:87-89 | a selection missing from the feed moves to the first post on next |
| Photography.SectionFor | src/pages/Photography.tsx:148-239 | exactly one section: skeleton iff loading; error iff not loading and error is truthy; grid iff neither and posts non-empty; "No photos yet." iff neither and posts empty |
| Photography.CardAlt | src/pages/Photography.tsx:194 | the caption when non-empty, else "Photography" |
| Photography.CardTitle | src/pages/Photography.tsx:195 | no title iff no caption; otherwise a prefix of it: the whole caption up to 50 characters, exactly the first 50 beyond that |
| Photography.ProfileLink | src/pages/Photography.tsx:109 | the account URL is the profile prefix followed by exactly the username |
| Photography.PhotographyPage.constructor | src/pages/Photography.tsx:38-44 | no posts, loading, no error, nothing selected, lightbox closed, profile layout, default username |
| Photography.PhotographyPage.BeginLoad | src/pages/Photography.tsx:48 | loading becomes true, nothing else changes |
| Photography.PhotographyPage.CompleteLoad | src/pages/Photography.tsx:56-69 | a truthy feed error is stored and the posts kept, otherwise the posts are replaced and the error kept; the username changes only for a profile with a non-empty username; a profile error is never stored; loading ends |
| Photography.PhotographyPage.LoadData | src/pages/Photography.tsx:47-70 | the feed's truthy error is stored with the posts kept, otherwise the fetched posts replace the feed and the error is kept (configuration message when unconfigured, fallback message for a failure without a message); the username becomes a received non-empty username, else is kept; loading ends; the selection, lightbox and layout are unchanged |
| Photography.PhotographyPage.OpenLightbox | src/pages/Photography.tsx:75-78 | selects the post and opens the lightbox |
| Photography.PhotographyPage.CloseLightbox | src/pages/Photography.tsx:80-83 | closes the lightbox at once and keeps the selection |
| Photography.PhotographyPage.ClearSelectionAfterClose | src/pages/Photography.tsx:82 | the delayed callback clears the selection only |
| Photography.PhotographyPage.SetViewMode | src/pages/Photography.tsx:121-133 | the toggle sets the layout only |
| Photography.PhotographyPage.NavigateLightbox | src/pages/Photography.tsx:85-92 | the new selection is `Navigate` of the old feed and selection; nothing else changes |
| Documents.StripMdx | content-collections.ts:71 | one trailing ".mdx" is removed; other names are unchanged |
| Documents.StripMdxRoundTrip | content-collections.ts:71 | stripping `name + ".mdx"` gives back `name` |
| Documents.SplitOnWhitespace | content-collections.ts:85 | `split(/\s+/g)` gives at least one piece and no piece contains whitespace |
| Documents.SplitFromCountsRuns | content-collections.ts:85 | the number of pieces is 1 + the number of maximal whitespace runs |
| Documents.WordCount | content-collections.ts:85 | word count = 1 + whitespace runs, hence at least 1 |
| Documents.NoSpaceIsOneWord | content-collections.ts:85 | a body without whitespace, the empty one included, counts one word |
| Documents.BuildStructuredData | content-collections.ts:86-101 | BlogPosting by the fixed author; both dates are publishedAt; headline = title, description = summary; image is the site + image, or the site + the default image when empty; url is the site + "/writing/" + `_meta.path` |
| Documents.TransformAt | content-collections.ts:76-106 | every input field kept; slug, word count and JSON-LD derived as above; body.raw = content |
| Documents.FirstInvalidField | content-collections.ts:41-46 | reports a required key that is missing or not a string, and none iff all are strings |
| Documents.RequiredFields | metadata.ts:12-18 | the four front-matter strings, plus `content` exactly when it is a schema field |
| Documents.DocumentFields | content-collections.ts:72 | the object the schema sees holds the body as the string `content` and the front matter's other keys unchanged |
| Documents.ParseDocument | content-collections.ts:40-46 | a file is admitted iff the four front-matter keys are strings; the error names the file and a bad front-matter key; the record takes those values and the body as content |
| Documents.ContentInSchemaChangesNothing | metadata.ts:12-18 | declaring `content` in the schema admits and rejects the same files with the same result |
| Documents.FirstInvalidFieldAppend | content-collections.ts:40-46 | checking more keys only matters once the earlier keys all pass |
| Documents.LoadCollection | content-collections.ts:37-108 | all-or-nothing: loads iff every file validates, then transforms each file in order; otherwise the error is that of the first failing file |
| ContentCollections.Transform | content-collections.ts:71-106 | the transform under https://nasrulhuda.dev: slug, word count, body.raw, image fallback, url from `_meta.path`, both dates |
| ContentCollections.LoadWritings | content-collections.ts:37-46 | the collection loads iff every file has the four front-matter strings; content is the file body |
| ContentCollections.OnVisitHighlightedLine | content-collections.ts:14-16 | appends the highlighted-line class, keeping the existing ones and the children |
| ContentCollections.OnVisitHighlightedWord | content-collections.ts:17-19 | the class list becomes exactly the highlighted-word class |
| ContentCollections.OnVisitLine | content-collections.ts:20-27 | an empty line gets exactly one " " text child, other children are untouched; "syntax-line" is appended |
| Metadata.SchemaAdmitsFrontMatterStrings | metadata.ts:12-18 | a file is admitted iff image, publishedAt, summary and title are strings, exactly as under the later schema |
| Metadata.Transform | metadata.ts:19-55 | the transform under https://nasrul.info: slug, word count, image fallback, url from `_meta.path`, both dates, body.raw = content |
| Metadata.LoadWritings | metadata.ts:19-24 | loads iff every file has the four front-matter strings; each raw body is the file body and the word count is 1 + its whitespace runs |
| Writing.Summaries | src/pages/Writing.tsx:7-13 | one projection (slug, title, summary, publishedAt) per document, in order |
| Writing.InsertPermutes | src/pages/Writing.tsx:14-17 | inserting adds exactly the element: the multiset grows by it |
| Writing.InsertKeepsOrder | src/pages/Writing.tsx:14-17 | inserting into a newest-first list keeps it newest first |
| Writing.SortNewestFirst | src/pages/Writing.tsx:14-17 | the result is a permutation of the input, of the same length, with dates non-increasing |
| Writing.SortIsStable | src/pages/Writing.tsx:14-17 | entries with equal dates keep their original relative order |
| Writing.GetData | src/pages/Writing.tsx:6-20 | a newest-first permutation of the documents' projections |
| Writing.ListedIffPublished | src/pages/Writing.tsx:7-13 | an entry is listed iff it is the projection of some document |
| Writing.WritingHref | src/pages/Writing.tsx:43 | the link is "/writing/" followed by exactly the slug |
| Writing.RouteSlug | src/App.tsx:48 | a slug exists only for "/writing/" + one non-empty segment without "/" + optional trailing slashes, and is that segment |
| Writing.RouteSlugMatches | src/App.tsx:48 | every such path yields its segment |
| Writing.TwoSegmentsDoNotRoute | src/App.tsx:48 | a path with a second segment yields no slug |
| Writing.HrefRoundTrip | src/pages/Writing.tsx:43 | following an entry's link yields its slug back, for a non-empty slug without "/" |
| Home.RecentWriting | src/pages/Home.tsx:8-23 | exactly min(3, n) entries, a prefix of the index, newest first |
| Home.LeftOutAreNotNewer | src/pages/Home.tsx:16-20 | no entry left off the home page is newer than one shown |
| Home.RecentAreProjections | src/pages/Home.tsx:9-15 | every entry shown is some document's projection |
| Home.ShortIndexShownWhole | src/pages/Home.tsx:20 | with at most three documents the whole index is shown |
| WritingPost.FindBySlug | src/pages/WritingPost.tsx:19 | the first document with the slug; nothing iff no document has it |
| WritingPost.MdxPath | src/pages/WritingPost.tsx:26 | the loader key is "../../data/writing/" + slug + ".mdx" |
| WritingPost.EditUrl | src/pages/WritingPost.tsx:9-10 | the GitHub edit prefix, then exactly the slug, then ".mdx" |
| WritingPost.EditUrlInjective | src/pages/WritingPost.tsx:9-10 | distinct slugs get distinct edit links |
| WritingPost.MdxPathOfSourceFile | src/pages/WritingPost.tsx:13-15 | a document's loader key is the glob key of the file it came from |
| WritingPost.ResolvePost | src/pages/WritingPost.tsx:19-39 | renders iff a document has the slug and its loader exists, showing the first match; otherwise redirects to /404 |
| WritingPost.IndexedPostsResolve | src/pages/WritingPost.tsx:19-39 | every entry of the index opens a page when the documents' files are in the glob |
| Navbar.NavigationItems | src/components/Navbar.tsx:15 | exactly the actions of the Navigation section |
| Navbar.NavigationItemsAppend | src/components/Navbar.tsx:15 | the filter distributes over concatenation, so list order is kept |
| Navbar.NavHref | src/components/Navbar.tsx:39-43 | a missing or empty href becomes "/", so the link target is never empty |
| Navbar.IsActive | src/components/Navbar.tsx:21-24 | "/" is active only on "/"; any other href iff it is a prefix of the path ("/work" on "/workshop" too) |
| Navbar.ActiveBelowOwnPath | src/components/Navbar.tsx:23 | a link is active on its own path and every path extending it |
| Navbar.RootHighlightsOnlyHome | src/components/Navbar.tsx:22 | on "/" a navigation link is active iff it targets "/" |
| Navbar.ToggleTheme | src/components/Navbar.tsx:17-19 | dark switches to light, anything else (unresolved included) to dark |
| Navbar.ToggleTwiceRestores | src/components/Navbar.tsx:17-19 | two toggles return to a resolved light or dark theme |
| Navbar.ThemeIcon | src/components/Navbar.tsx:90-94 | the sun shows iff the theme is dark |
| Navbar.IconMatchesTarget | src/components/Navbar.tsx:90-94 | the sun shows iff a click switches to light |
| MdxComponents.ClassifyHref | src/components/MDXComponents.tsx:5-22 | router link iff it starts with "/"; in-page anchor iff "#"; external for any other string, "" included; an undefined href throws |
| MdxComponents.WritingLinksStayInApp | src/components/MDXComponents.tsx:7-15 | links to writing pages go through the router |
| BentoGrid.Cn | src/components/BentoGrid.tsx:70 | the class list is empty iff every part is, and begins with a non-empty first part |
| BentoGrid.CnSpaced | src/components/BentoGrid.tsx:70 | the class list is every non-empty part, in order, separated by single spaces |
| BentoGrid.CnOfThree | src/components/BentoGrid.tsx:113 | two non-empty classes then an optional third join as "a b" plus " c" when c is non-empty |
| BentoGrid.CnOfFour | src/components/BentoGrid.tsx:70 | a non-empty class followed by three optional ones, each added with a space when non-empty |
| BentoGrid.PatternAt | src/components/BentoGrid.tsx:107 | index mod 8 for non-negative indices; a negative index finds a pattern iff it is a multiple of 8, and then the first one (index -0) |
| BentoGrid.ItemSpan | src/components/BentoGrid.tsx:107-109 | a non-empty override wins, col and row independently; otherwise the pattern's value; throws iff the pattern is missing and some override is empty |
| BentoGrid.SpanRepeatsEveryEight | src/components/BentoGrid.tsx:21-30 | items eight places apart get the same spans |
| BentoGrid.NonNegativeIndexHasSpan | src/components/BentoGrid.tsx:107 | a non-negative index never throws |
| BentoGrid.ItemClasses | src/components/BentoGrid.tsx:113 | the item's class list is the column span, the row span and the non-empty `className`, space-separated, and exists iff the spans do |
| BentoGrid.BreakpointClass | src/components/BentoGrid.tsx:67-69 | a breakpoint class exists iff the count is 3 to 6, and then names that count |
| BentoGrid.ColumnClasses | src/components/BentoGrid.tsx:65-71 | "grid-cols-2" followed by each existing breakpoint class (sm, md, lg, with the defaults when `columns` is absent), space-separated |
| BentoGrid.DefaultColumnsHaveEveryBreakpoint | src/components/BentoGrid.tsx:54 | the default columns give the 4, 5 and 6 column classes |
| BentoGrid.GridClasses | src/components/BentoGrid.tsx:75-80 | "grid", the column classes, the gap classes ("md" by default) and the non-empty `className`, space-separated |
| BentoGrid.GridAutoRows | src/components/BentoGrid.tsx:82 | "minmax(" then the base height's text then "px, auto)" |
| BentoGrid.AutoRowsDistinguishHeights | src/components/BentoGrid.tsx:82 | different base heights give different styles |
| BentoGrid.CardWrapper | src/components/BentoGrid.tsx:220-241 | anchor iff href is non-empty; else button iff there is a click handler; else the bare card |
| BentoGrid.CaptionLine | src/components/BentoGrid.tsx:199-203 | subtitle, the separator text as the file holds it ("Â·"), meta in order; the separator only when both are non-empty |

## Left out

- Network access: `fetch`, `response.json`, the request URLs and the extraction of API error messages. Each request's outcome is an input (data received, or the message thrown).
- `refreshAccessToken`: a network call with no decision logic.
- `Promise.all` concurrency and the 200 ms `setTimeout` in `closeLightbox`. Loading is split into `BeginLoad` and `CompleteLoad`, and the timer callback is `ClearSelectionAfterClose`. The model does not capture updates after unmount.
- Date handling:
  - `new Date` parsing, and the millisecond-to-day division in `formatPostDate`;
  - `toLocaleDateString`, and `formatFullDate` in the detail card;
  - NaN from invalid dates in the sort comparator.

  Day differences and timestamps are inputs.
- Photography.PhotographyPage.LoadData: the `limit` argument (25) of the feed request is not modelled, because it only shapes the request URL.
- The `readingTime` library, `compileMDX` and the remark/rehype plugin pipeline; `body.code` is not modelled. Only the three highlighter callbacks are.
- `src/lib/className` (`cn`) is not part of this model. `BentoGrid.Cn` joins the non-empty parts with spaces as clsx does; tailwind-merge's conflict resolution is not modelled.
- `data/cmd` (the action list) is not part of this model: `Navbar.NavigationItems` takes the actions as input.
- framer-motion animations and delays (float multipliers), Tailwind styling, the Lightbox keydown listener registration and `body.style.overflow`.
- Background.tsx (three.js), App.tsx, Footer, NotFound, the profile skeleton, Work page and static data: presentation or configuration only.
- Two concrete scenarios are not written as lemmas:
  - three documents sorted newest first, covered by `Writing.SortNewestFirst` and `Writing.SortIsStable`;
  - an album of four images and one video flattened, covered by `Instagram.ExpandPost`, `Instagram.ExpandedAlbumEntry` and `Instagram.SiblingsReconstructAlbum`.
- NatToString: `${n}` switches to exponent notation from 1e21 upward; the model always writes all digits. The numbers rendered (day and week counts, row heights, column counts) stay far below that.
- IntToString: the same exponent-notation limit as `NatToString`.
- CardTitle: `slice(0, 50)` counts UTF-16 code units, while the model counts characters. A caption with characters outside the Basic Multilingual Plane gets a different title, possibly one ending in half a surrogate pair.
- RouteSlug: the router matches the "/writing" prefix case-insensitively and percent-decodes the segment; the model matches the prefix exactly and keeps the segment as written.
- Numbers in props (`columns`, `rowHeight`, `carouselIndex`, indexes) are integers. Fractional values, and NaN indexes other than `posts[NaN]` in navigation, are not modelled.
