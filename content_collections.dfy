/** The active content-collections configuration: the Writing collection
    transform published under https://nasrulhuda.dev, and the three
    syntax-highlighter callbacks that edit code-block tree nodes in place. */
module ContentCollections {
  import opened Js
  import opened Documents

  const Site: string := "https://nasrulhuda.dev"

  /** The schema declares the four front-matter strings; the body arrives as `content`. */
  const ContentInSchema: bool := false

  /** The collection's `transform` on a validated document. */
  function Transform(doc: RawDoc): (w: WritingDoc)
    ensures w.slug == StripMdx(doc.meta.fileName)
    ensures w.wordCount == 1 + WhitespaceRuns(doc.content)
    ensures w.bodyRaw == doc.content
    ensures w.structuredData.url == "https://nasrulhuda.dev/writing/" + doc.meta.path
    ensures doc.image != "" ==> w.structuredData.image == "https://nasrulhuda.dev" + doc.image
    ensures doc.image == "" ==> w.structuredData.image == "https://nasrulhuda.dev/static/images/og.png"
    ensures w.structuredData.datePublished == doc.publishedAt == w.structuredData.dateModified
    ensures w.meta == doc.meta && w.title == doc.title && w.summary == doc.summary
    ensures w.image == doc.image && w.publishedAt == doc.publishedAt && w.content == doc.content
  {
    assert Site + "/writing/" == "https://nasrulhuda.dev/writing/";
    assert Site + DefaultImagePath == "https://nasrulhuda.dev/static/images/og.png";
    TransformAt(Site, doc)
  }

  /** The whole Writing collection, or the first schema violation. */
  function LoadWritings(files: seq<SourceFile>): (r: LoadResult<seq<WritingDoc>>)
    ensures r.Loaded? <==> forall i :: 0 <= i < |files| ==> HasFrontMatterStrings(files[i].fields)
    ensures r.Loaded? ==> |r.value| == |files|
    ensures r.Loaded? ==> forall i :: 0 <= i < |files| ==>
              && r.value[i].content == files[i].body
              && r.value[i].slug == StripMdx(files[i].meta.fileName)
  {
    LoadCollection(files, ContentInSchema, Site)
  }

  // ---------------------------------------------------------------------------
  // rehype-pretty-code callbacks

  /** A child of a rendered code line: a text node or a token element. */
  datatype HastChild = TextNode(value: string) | TokenElement(tagName: string, tokenText: string)

  /** A `<span>` element of the highlighted tree, as far as the callbacks touch it:
      its children and its `properties.className` list. */
  class HastElement {
    var children: seq<HastChild>
    var className: seq<string>

    constructor (children: seq<HastChild>, className: seq<string>)
      ensures this.children == children && this.className == className
    {
      this.children := children;
      this.className := className;
    }
  }

  /** onVisitHighlightedLine: appends the highlighted-line class. */
  method OnVisitHighlightedLine(node: HastElement)
    modifies node
    ensures node.className == old(node.className) + ["syntax-line--highlighted"]
    ensures node.children == old(node.children)
  {
    node.className := node.className + ["syntax-line--highlighted"];
  }

  /** onVisitHighlightedWord: the class list becomes exactly the highlighted-word class. */
  method OnVisitHighlightedWord(node: HastElement)
    modifies node
    ensures node.className == ["syntax-word--highlighted"]
    ensures node.children == old(node.children)
  {
    node.className := ["syntax-word--highlighted"];
  }

  /** onVisitLine: an empty line gets a single-space text child so it keeps its height and
      can be copied; every line gets the line class appended. */
  method OnVisitLine(node: HastElement)
    modifies node
    ensures old(node.children) == [] ==> node.children == [TextNode(" ")]
    ensures old(node.children) != [] ==> node.children == old(node.children)
    ensures |node.children| >= 1
    ensures node.className == old(node.className) + ["syntax-line"]
  {
    if |node.children| == 0 {
      node.children := [TextNode(" ")];
    }
    node.className := node.className + ["syntax-line"];
  }
}
