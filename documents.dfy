/** The writing documents: the validated front-matter record, the fields the
    content pipeline derives from it (slug, word count, JSON-LD structured
    data), and the schema check that admits a source file. The two pipeline
    configurations (ContentCollections, Metadata) build on these with their
    own site address. */
module Documents {
  import opened Js

  /** `_meta` of a source file: its file name and its collection-relative path. */
  datatype Meta = Meta(fileName: string, path: string)

  /** A document after schema validation: the four front-matter strings and the body. */
  datatype RawDoc = RawDoc(meta: Meta, image: string, publishedAt: string, summary: string, title: string, content: string)

  datatype Author = Author(kind: string, name: string)

  /** The schema.org BlogPosting object embedded in each post page. */
  datatype StructuredData = StructuredData(
    context: string,
    kind: string,
    author: Author,
    dateModified: string,
    datePublished: string,
    description: string,
    headline: string,
    image: string,
    url: string)

  /** A transformed document: every input field, then slug, wordCount, structuredData and body.raw. */
  datatype WritingDoc = WritingDoc(
    meta: Meta,
    image: string,
    publishedAt: string,
    summary: string,
    title: string,
    content: string,
    slug: string,
    wordCount: nat,
    structuredData: StructuredData,
    bodyRaw: string)

  // ---------------------------------------------------------------------------
  // slug: `fileName.replace(/\.mdx$/, '')`

  const MdxExtension: string := ".mdx"

  predicate HasMdxSuffix(s: string) {
    |s| >= |MdxExtension| && s[|s| - |MdxExtension|..] == MdxExtension
  }

  function StripMdx(fileName: string): (slug: string)
    ensures HasMdxSuffix(fileName) ==> slug + MdxExtension == fileName
    ensures !HasMdxSuffix(fileName) ==> slug == fileName
  {
    if HasMdxSuffix(fileName) then fileName[..|fileName| - |MdxExtension|] else fileName
  }

  /** Exactly one trailing ".mdx" is removed, whatever the name before it. */
  lemma StripMdxRoundTrip(name: string)
    ensures StripMdx(name + MdxExtension) == name
  {
    var f := name + MdxExtension;
    assert f[|f| - |MdxExtension|..] == MdxExtension;
    assert f[..|f| - |MdxExtension|] == name;
  }

  // ---------------------------------------------------------------------------
  // wordCount: `content.split(/\s+/g).length`

  /** ECMAScript's `\s`: the WhiteSpace and LineTerminator code points. */
  predicate IsSpace(c: char) {
    || c == ' ' || c == '\t' || c == '\n' || c == '\U{000B}' || c == '\U{000C}' || c == '\r'
    || c == '\U{00A0}' || c == '\U{1680}' || ('\U{2000}' <= c <= '\U{200A}')
    || c == '\U{2028}' || c == '\U{2029}' || c == '\U{202F}' || c == '\U{205F}'
    || c == '\U{3000}' || c == '\U{FEFF}'
  }

  predicate NoSpace(s: string) {
    forall i :: 0 <= i < |s| ==> !IsSpace(s[i])
  }

  /** The input with its leading whitespace run removed. */
  function SkipSpaces(s: string): (r: string)
    ensures |r| <= |s|
    ensures r == [] || !IsSpace(r[0])
    decreases |s|
  {
    if s != [] && IsSpace(s[0]) then SkipSpaces(s[1..]) else s
  }

  /** Splitting at every maximal whitespace run; `current` is the piece read so far. */
  function SplitFrom(s: string, current: string): (pieces: seq<string>)
    requires NoSpace(current)
    ensures |pieces| >= 1
    ensures forall i :: 0 <= i < |pieces| ==> NoSpace(pieces[i])
    decreases |s|
  {
    if s == [] then [current]
    else if IsSpace(s[0]) then [current] + SplitFrom(SkipSpaces(s), "")
    else SplitFrom(s[1..], current + [s[0]])
  }

  /** `s.split(/\s+/g)`: leading or trailing whitespace yields an empty first or last piece. */
  function SplitOnWhitespace(s: string): (pieces: seq<string>)
    ensures |pieces| >= 1
    ensures forall i :: 0 <= i < |pieces| ==> NoSpace(pieces[i])
  {
    SplitFrom(s, "")
  }

  /** Number of maximal whitespace runs, counted at the first character of each run
      (`afterSpace` says whether the character before `s` was whitespace). */
  function RunStarts(s: string, afterSpace: bool): nat
    decreases |s|
  {
    if s == [] then 0
    else (if IsSpace(s[0]) && !afterSpace then 1 else 0) + RunStarts(s[1..], IsSpace(s[0]))
  }

  function WhitespaceRuns(s: string): nat {
    RunStarts(s, false)
  }

  /** Inside a run, the rest of the run adds no new run start. */
  lemma {:induction false} RunStartsSkip(s: string)
    ensures RunStarts(s, true) == RunStarts(SkipSpaces(s), false)
    decreases |s|
  {
    if s != [] && IsSpace(s[0]) {
      RunStartsSkip(s[1..]);
    }
  }

  lemma {:induction false} SplitFromCountsRuns(s: string, current: string)
    requires NoSpace(current)
    ensures |SplitFrom(s, current)| == 1 + RunStarts(s, false)
    decreases |s|
  {
    if s == [] {
    } else if IsSpace(s[0]) {
      assert SkipSpaces(s) == SkipSpaces(s[1..]);
      RunStartsSkip(s[1..]);
      SplitFromCountsRuns(SkipSpaces(s), "");
    } else {
      SplitFromCountsRuns(s[1..], current + [s[0]]);
    }
  }

  /** The word count: one more than the number of whitespace runs, so at least 1. */
  function WordCount(content: string): (n: nat)
    ensures n == 1 + WhitespaceRuns(content)
    ensures n >= 1
  {
    SplitFromCountsRuns(content, "");
    |SplitOnWhitespace(content)|
  }

  /** A body without whitespace (the empty body included) counts as one word. */
  lemma {:induction false} NoSpaceIsOneWord(content: string)
    requires NoSpace(content)
    ensures WordCount(content) == 1
  {
    NoRunStarts(content, false);
  }

  lemma {:induction false} NoRunStarts(s: string, afterSpace: bool)
    requires NoSpace(s)
    ensures RunStarts(s, afterSpace) == 0
    decreases |s|
  {
    if s != [] {
      NoRunStarts(s[1..], false);
    }
  }

  // ---------------------------------------------------------------------------
  // structuredData

  const SchemaContext: string := "https://schema.org"
  const DefaultImagePath: string := "/static/images/og.png"
  const AuthorName: string := "Nasrul Huda"

  /** The JSON-LD object for a document published under `site`. */
  function BuildStructuredData(site: string, doc: RawDoc): (d: StructuredData)
    ensures d.context == SchemaContext && d.kind == "BlogPosting"
    ensures d.author == Author("Person", AuthorName)
    ensures d.datePublished == doc.publishedAt && d.dateModified == doc.publishedAt
    ensures d.headline == doc.title && d.description == doc.summary
    ensures site <= d.image
    ensures doc.image != "" ==> d.image[|site|..] == doc.image
    ensures doc.image == "" ==> d.image[|site|..] == DefaultImagePath
    ensures d.url == site + "/writing/" + doc.meta.path
  {
    StructuredData(
      SchemaContext,
      "BlogPosting",
      Author("Person", AuthorName),
      doc.publishedAt,
      doc.publishedAt,
      doc.summary,
      doc.title,
      if doc.image != "" then site + doc.image else site + DefaultImagePath,
      site + "/writing/" + doc.meta.path)
  }

  /** The transform shared by both pipeline configurations, for the site at `site`. */
  function TransformAt(site: string, doc: RawDoc): (w: WritingDoc)
    ensures w.meta == doc.meta && w.image == doc.image && w.publishedAt == doc.publishedAt
    ensures w.summary == doc.summary && w.title == doc.title && w.content == doc.content
    ensures w.bodyRaw == doc.content
    ensures w.slug == StripMdx(doc.meta.fileName)
    ensures w.wordCount == 1 + WhitespaceRuns(doc.content)
    ensures w.structuredData == BuildStructuredData(site, doc)
  {
    WritingDoc(doc.meta, doc.image, doc.publishedAt, doc.summary, doc.title, doc.content,
               StripMdx(doc.meta.fileName), WordCount(doc.content), BuildStructuredData(site, doc),
               doc.content)
  }

  // ---------------------------------------------------------------------------
  // Schema validation (zod `z.object` of required strings)

  datatype FieldValue = StringValue(text: string) | OtherValue

  /** The parsed front matter of one source file, and its body. */
  datatype SourceFile = SourceFile(meta: Meta, fields: map<string, FieldValue>, body: string)

  predicate IsStringField(fields: map<string, FieldValue>, key: string) {
    key in fields && fields[key].StringValue?
  }

  /** The first required key that is missing or not a string, if any. */
  function FirstInvalidField(fields: map<string, FieldValue>, required: seq<string>): (bad: Option<string>)
    ensures bad.None? <==> forall i :: 0 <= i < |required| ==> IsStringField(fields, required[i])
    ensures bad.Some? ==> bad.value in required && !IsStringField(fields, bad.value)
    decreases |required|
  {
    if required == [] then None
    else if !IsStringField(fields, required[0]) then Some(required[0])
    else FirstInvalidField(fields, required[1..])
  }

  function StringField(fields: map<string, FieldValue>, key: string): string
    requires IsStringField(fields, key)
  {
    fields[key].text
  }

  /** Which file failed validation and on which field. */
  datatype SchemaError = SchemaError(fileName: string, field: string)

  datatype LoadResult<T> = Loaded(value: T) | Failed(error: SchemaError)

  const FrontMatterFields: seq<string> := ["image", "publishedAt", "summary", "title"]

  /** The keys a configuration's schema requires: the front-matter strings, and `content`
      too when the body is declared as a schema field. */
  function RequiredFields(contentInSchema: bool): (keys: seq<string>)
    ensures FrontMatterFields <= keys
    ensures "content" in keys <==> contentInSchema
  {
    FrontMatterFields + (if contentInSchema then ["content"] else [])
  }

  /** The four front-matter keys are present and hold strings. */
  predicate HasFrontMatterStrings(fields: map<string, FieldValue>) {
    && IsStringField(fields, "image")
    && IsStringField(fields, "publishedAt")
    && IsStringField(fields, "summary")
    && IsStringField(fields, "title")
  }

  /** The object the schema checks: the front matter with the file's body under `content`
      (the body replaces any front-matter key of that name). */
  function DocumentFields(file: SourceFile): (fields: map<string, FieldValue>)
    ensures IsStringField(fields, "content") && StringField(fields, "content") == file.body
    ensures forall k :: k != "content" ==> (IsStringField(fields, k) <==> IsStringField(file.fields, k))
    ensures forall k :: k != "content" && IsStringField(fields, k) ==> StringField(fields, k) == StringField(file.fields, k)
  {
    file.fields["content" := StringValue(file.body)]
  }

  /** Validates one source file against the schema and builds the document record. The
      body is always a string, so only the front-matter strings can fail validation, and
      the record's content is the body in either configuration. */
  function ParseDocument(file: SourceFile, contentInSchema: bool): (r: LoadResult<RawDoc>)
    ensures r.Loaded? <==> HasFrontMatterStrings(file.fields)
    ensures r.Failed? ==> r.error.fileName == file.meta.fileName && r.error.field in FrontMatterFields
                          && !IsStringField(file.fields, r.error.field)
    ensures r.Loaded? ==> r.value.meta == file.meta
                          && r.value.title == StringField(file.fields, "title")
                          && r.value.summary == StringField(file.fields, "summary")
                          && r.value.image == StringField(file.fields, "image")
                          && r.value.publishedAt == StringField(file.fields, "publishedAt")
                          && r.value.content == file.body
  {
    var fields := DocumentFields(file);
    var required := RequiredFields(contentInSchema);
    match FirstInvalidField(fields, required)
    case Some(key) =>
      assert key in FrontMatterFields by {
        if !contentInSchema {
          assert required == FrontMatterFields;
        } else {
          assert required == FrontMatterFields + ["content"];
        }
      }
      Failed(SchemaError(file.meta.fileName, key))
    case None =>
      assert HasFrontMatterStrings(file.fields) by {
        assert required[0] == "image" && required[1] == "publishedAt";
        assert required[2] == "summary" && required[3] == "title";
      }
      Loaded(RawDoc(
        file.meta,
        StringField(fields, "image"),
        StringField(fields, "publishedAt"),
        StringField(fields, "summary"),
        StringField(fields, "title"),
        file.body))
  }

  /** Declaring `content` in the schema admits and rejects the same files with the same
      errors, because what it validates is the body. */
  lemma ContentInSchemaChangesNothing(file: SourceFile)
    ensures ParseDocument(file, true) == ParseDocument(file, false)
  {
    var fields := DocumentFields(file);
    FirstInvalidFieldAppend(fields, FrontMatterFields, ["content"]);
    assert RequiredFields(true) == FrontMatterFields + ["content"];
    assert RequiredFields(false) == FrontMatterFields;
    assert FirstInvalidField(fields, ["content"]).None? by {
      assert ["content"][1..] == [];
    }
  }

  /** Checking extra keys after the first ones only matters when the first ones all pass. */
  lemma {:induction false} FirstInvalidFieldAppend(fields: map<string, FieldValue>, a: seq<string>, b: seq<string>)
    ensures FirstInvalidField(fields, a + b)
            == if FirstInvalidField(fields, a).Some? then FirstInvalidField(fields, a) else FirstInvalidField(fields, b)
    decreases |a|
  {
    if a == [] {
      assert a + b == b;
    } else {
      assert (a + b)[0] == a[0];
      assert (a + b)[1..] == a[1..] + b;
      FirstInvalidFieldAppend(fields, a[1..], b);
    }
  }

  /** Loading a collection is all-or-nothing: the first invalid file fails the whole build,
      otherwise every file is transformed, in order. */
  function LoadCollection(files: seq<SourceFile>, contentInSchema: bool, site: string): (r: LoadResult<seq<WritingDoc>>)
    ensures r.Loaded? <==> forall i :: 0 <= i < |files| ==> ParseDocument(files[i], contentInSchema).Loaded?
    ensures r.Loaded? ==> |r.value| == |files|
    ensures r.Loaded? ==> forall i :: 0 <= i < |files| ==>
              r.value[i] == TransformAt(site, ParseDocument(files[i], contentInSchema).value)
    ensures r.Failed? ==> exists i :: FirstFailure(files, contentInSchema, i, r.error)
    decreases |files|
  {
    if files == [] then Loaded([])
    else
      var head := ParseDocument(files[0], contentInSchema);
      var tail := LoadCollection(files[1..], contentInSchema, site);
      assert forall i :: 1 <= i < |files| ==> files[i] == files[1..][i - 1];
      if head.Failed? then
        assert FirstFailure(files, contentInSchema, 0, head.error);
        Failed(head.error)
      else if tail.Failed? then
        var i :| FirstFailure(files[1..], contentInSchema, i, tail.error);
        assert FirstFailure(files, contentInSchema, i + 1, tail.error);
        Failed(tail.error)
      else
        Loaded([TransformAt(site, head.value)] + tail.value)
  }

  /** File i is the first to fail validation, with the given error. */
  predicate FirstFailure(files: seq<SourceFile>, contentInSchema: bool, i: int, error: SchemaError) {
    && 0 <= i < |files|
    && ParseDocument(files[i], contentInSchema) == Failed(error)
    && forall j :: 0 <= j < i ==> ParseDocument(files[j], contentInSchema).Loaded?
  }
}
