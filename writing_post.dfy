/** A single post's page at `/writing/:slug`: which document it shows, which
    compiled MDX module it loads, and the "Edit source on GitHub" link. */
module WritingPost {
  import opened Js
  import opened Documents
  import Writing

  /** `allWritings.find(post => post.slug === slug)`. */
  function FindBySlug(docs: seq<WritingDoc>, slug: string): (found: Option<WritingDoc>)
    ensures found.None? <==> forall i :: 0 <= i < |docs| ==> docs[i].slug != slug
    ensures found.Some? ==> found.value.slug == slug && found.value in docs
    ensures found.Some? ==>
              exists i :: 0 <= i < |docs| && docs[i] == found.value && forall j :: 0 <= j < i ==> docs[j].slug != slug
    decreases |docs|
  {
    if docs == [] then None
    else if docs[0].slug == slug then Some(docs[0])
    else
      var rest := FindBySlug(docs[1..], slug);
      assert forall i :: 1 <= i < |docs| ==> docs[i] == docs[1..][i - 1];
      if rest.None? then rest
      else
        var k :| 0 <= k < |docs| - 1 && docs[1..][k] == rest.value &&
                 forall j :: 0 <= j < k ==> docs[1..][j].slug != slug;
        assert docs[k + 1] == rest.value;
        rest
  }

  const WritingDir: string := "../../data/writing/"
  const EditPrefix: string := "https://github.com/nnayz/me/edit/main/data/writing/"

  /** The key of the slug's module in the glob of the ".mdx" files under `../../data/writing/`. */
  function MdxPath(slug: string): (path: string)
    ensures path == WritingDir + slug + MdxExtension
    ensures HasMdxSuffix(path)
  {
    WritingDir + slug + MdxExtension
  }

  /** editUrl: the slug's source file on GitHub. */
  function EditUrl(slug: string): (url: string)
    ensures |url| == |EditPrefix| + |slug| + |MdxExtension|
    ensures url[..|EditPrefix|] == EditPrefix
    ensures url[|EditPrefix|..|url| - |MdxExtension|] == slug
    ensures HasMdxSuffix(url)
  {
    EditPrefix + slug + MdxExtension
  }

  /** Distinct posts get distinct edit links. */
  lemma EditUrlInjective(a: string, b: string)
    requires EditUrl(a) == EditUrl(b)
    ensures a == b
  {
    var u := EditUrl(a);
    assert a == u[|EditPrefix|..|u| - |MdxExtension|];
  }

  /** The glob key for the file a document came from, when its name ends in ".mdx". */
  lemma MdxPathOfSourceFile(doc: WritingDoc)
    requires doc.slug == StripMdx(doc.meta.fileName)
    requires HasMdxSuffix(doc.meta.fileName)
    ensures MdxPath(doc.slug) == WritingDir + doc.meta.fileName
  {
    assert doc.slug + MdxExtension == doc.meta.fileName;
    assert WritingDir + doc.slug + MdxExtension == WritingDir + (doc.slug + MdxExtension);
  }

  datatype Page = NotFoundRedirect | Render(post: WritingDoc, mdxPath: string)

  /** The page for `slug`: a redirect to /404 unless a document has that slug and the
      glob holds a module for it; `modules` is the set of glob keys. */
  function ResolvePost(docs: seq<WritingDoc>, slug: string, modules: set<string>): (page: Page)
    ensures page.Render? <==> FindBySlug(docs, slug).Some? && MdxPath(slug) in modules
    ensures page.Render? ==> page.post == FindBySlug(docs, slug).value && page.post.slug == slug
    ensures page.Render? ==> page.mdxPath == MdxPath(slug) && page.mdxPath in modules
  {
    var post := FindBySlug(docs, slug);
    if post.None? then NotFoundRedirect
    else if MdxPath(slug) !in modules then NotFoundRedirect
    else Render(post.value, MdxPath(slug))
  }

  /** Every entry of the writing index opens its page, when each document's source
      file is in the glob. */
  lemma IndexedPostsResolve(docs: seq<WritingDoc>, time: string -> int, modules: set<string>,
                            entry: Writing.Summary)
    requires forall d :: d in docs ==> d.slug == StripMdx(d.meta.fileName) && HasMdxSuffix(d.meta.fileName)
    requires forall d :: d in docs ==> WritingDir + d.meta.fileName in modules
    requires entry in Writing.GetData(docs, time)
    ensures ResolvePost(docs, entry.slug, modules).Render?
  {
    Writing.ListedIffPublished(docs, time, entry);
    var i :| 0 <= i < |docs| && entry == Writing.ToSummary(docs[i]);
    assert docs[i] in docs;
    var found := FindBySlug(docs, entry.slug);
    assert found.Some?;
    MdxPathOfSourceFile(docs[i]);
  }

  /** The hero image is shown only for a non-empty image. */
  predicate HeroVisible(post: WritingDoc) {
    post.image != ""
  }
}
