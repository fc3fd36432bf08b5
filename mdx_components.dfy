/** The link component used inside writing: how an MDX `href` is rendered. */
module MdxComponents {
  import opened Js

  datatype LinkKind =
    | RouterLink      // client-side navigation
    | InPageAnchor    // plain <a> to a fragment of the page
    | ExternalAnchor  // link opening outside the site
    | TypeErrorThrown // `href.startsWith` on an undefined href

  predicate StartsWith(s: string, c: char) {
    |s| > 0 && s[0] == c
  }

  /** CustomLink: a non-empty href starting with "/" stays in the app, one starting with
      "#" is an in-page anchor, any other string (including "") is external, and a
      missing href throws. */
  function ClassifyHref(href: Option<string>): (kind: LinkKind)
    ensures kind == TypeErrorThrown <==> href.None?
    ensures kind == RouterLink <==> href.Some? && StartsWith(href.value, '/')
    ensures kind == InPageAnchor <==> href.Some? && StartsWith(href.value, '#')
    ensures kind == ExternalAnchor <==>
              href.Some? && !StartsWith(href.value, '/') && !StartsWith(href.value, '#')
  {
    if Truthy(href) && StartsWith(href.value, '/') then RouterLink
    else if href.None? then TypeErrorThrown
    else if StartsWith(href.value, '#') then InPageAnchor
    else ExternalAnchor
  }

  /** Every link to a writing page is handled by the router. */
  lemma WritingLinksStayInApp(slug: string)
    ensures ClassifyHref(Some("/writing/" + slug)) == RouterLink
  {
  }
}
