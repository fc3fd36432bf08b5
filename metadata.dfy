/** The earlier content configuration: the same Writing transform published
    under https://nasrul.info, with the body (`content`) declared in the schema. */
module Metadata {
  import opened Js
  import opened Documents

  const Site: string := "https://nasrul.info"

  /** The schema declares image, publishedAt, summary, title and content. */
  const ContentInSchema: bool := true

  /** Which files the schema admits: the four front-matter strings decide, since the
      declared `content` is the body, which is always a string. The later configuration,
      which leaves `content` out of the schema, admits and rejects exactly the same files. */
  lemma SchemaAdmitsFrontMatterStrings(file: SourceFile)
    ensures ParseDocument(file, ContentInSchema).Loaded? <==>
              && IsStringField(file.fields, "image")
              && IsStringField(file.fields, "publishedAt")
              && IsStringField(file.fields, "summary")
              && IsStringField(file.fields, "title")
    ensures ParseDocument(file, ContentInSchema) == ParseDocument(file, false)
  {
    ContentInSchemaChangesNothing(file);
  }

  /** The configuration's `transform` on a validated document. */
  function Transform(doc: RawDoc): (w: WritingDoc)
    ensures w.slug == StripMdx(doc.meta.fileName)
    ensures w.wordCount == 1 + WhitespaceRuns(doc.content)
    ensures w.bodyRaw == doc.content
    ensures w.structuredData.url == "https://nasrul.info/writing/" + doc.meta.path
    ensures doc.image != "" ==> w.structuredData.image == "https://nasrul.info" + doc.image
    ensures doc.image == "" ==> w.structuredData.image == "https://nasrul.info/static/images/og.png"
    ensures w.structuredData.datePublished == doc.publishedAt == w.structuredData.dateModified
    ensures w.meta == doc.meta && w.title == doc.title && w.summary == doc.summary
    ensures w.image == doc.image && w.publishedAt == doc.publishedAt && w.content == doc.content
  {
    assert Site + "/writing/" == "https://nasrul.info/writing/";
    assert Site + DefaultImagePath == "https://nasrul.info/static/images/og.png";
    TransformAt(Site, doc)
  }

  /** The whole collection, or the first schema violation. */
  function LoadWritings(files: seq<SourceFile>): (r: LoadResult<seq<WritingDoc>>)
    ensures r.Loaded? <==> forall i :: 0 <= i < |files| ==> HasFrontMatterStrings(files[i].fields)
    ensures r.Loaded? ==> |r.value| == |files|
    ensures r.Loaded? ==> forall i :: 0 <= i < |files| ==>
              && r.value[i].bodyRaw == files[i].body
              && r.value[i].wordCount == 1 + WhitespaceRuns(files[i].body)
  {
    LoadCollection(files, ContentInSchema, Site)
  }
}
