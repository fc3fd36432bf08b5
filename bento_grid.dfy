/** The bento grid layout: the container's class list and row style, each
    item's span taken from a repeating pattern of eight, and how an image card
    is wrapped and captioned. Class lists are built with a clsx-style join. */
module BentoGrid {
  import opened Js

  // ---------------------------------------------------------------------------
  // Class-list joining.

  /** The non-empty parts, in order. */
  function NonEmpty(parts: seq<string>): (r: seq<string>)
    ensures |r| <= |parts|
    ensures forall i :: 0 <= i < |r| ==> r[i] != ""
    decreases |parts|
  {
    if parts == [] then []
    else (if parts[0] != "" then [parts[0]] else []) + NonEmpty(parts[1..])
  }

  /** The words joined by single spaces. */
  function JoinWords(words: seq<string>): (r: string)
    ensures words == [] ==> r == ""
    ensures words != [] ==> words[0] <= r
    ensures words != [] && words[0] != "" ==> r != ""
    decreases |words|
  {
    if words == [] then ""
    else if |words| == 1 then words[0]
    else words[0] + " " + JoinWords(words[1..])
  }

  /** `cn(...)` on strings, where "" stands for a falsy argument: the non-empty parts
      joined by spaces. */
  function Cn(parts: seq<string>): (r: string)
    ensures r == "" <==> forall i :: 0 <= i < |parts| ==> parts[i] == ""
    ensures |parts| > 0 && parts[0] != "" ==> parts[0] <= r
  {
    NonEmptyFacts(parts);
    JoinWords(NonEmpty(parts))
  }

  /** A word preceded by the separating space, or nothing for "". */
  function Spaced(word: string): string {
    if word == "" then "" else " " + word
  }

  /** Every non-empty part preceded by a space, in the order given: an independent
      description of the joined class list. */
  function SpacedParts(parts: seq<string>): string
    decreases |parts|
  {
    if parts == [] then "" else Spaced(parts[0]) + SpacedParts(parts[1..])
  }

  /** `cn` keeps every non-empty part, in order, each once, separated by single spaces. */
  lemma {:induction false} CnSpaced(parts: seq<string>)
    ensures Spaced(Cn(parts)) == SpacedParts(parts)
    decreases |parts|
  {
    if parts != [] {
      var rest := parts[1..];
      CnSpaced(rest);
      var t := NonEmpty(rest);
      if parts[0] == "" {
        assert NonEmpty(parts) == t;
      } else {
        assert NonEmpty(parts) == [parts[0]] + t;
        if t == [] {
          assert Cn(parts) == parts[0];
        } else {
          assert ([parts[0]] + t)[1..] == t;
          assert JoinWords(t) != "";
          assert Cn(parts) == parts[0] + " " + Cn(rest);
        }
      }
    }
  }

  lemma SpacedPartsOfThree(a: string, b: string, c: string)
    ensures SpacedParts([a, b, c]) == Spaced(a) + Spaced(b) + Spaced(c)
  {
    assert SpacedParts([c]) == Spaced(c) by {
      assert [c][1..] == [];
      assert Spaced(c) + "" == Spaced(c);
    }
    assert SpacedParts([b, c]) == Spaced(b) + Spaced(c) by {
      assert [b, c][1..] == [c];
    }
    assert [a, b, c][1..] == [b, c];
    assert Spaced(a) + (Spaced(b) + Spaced(c)) == Spaced(a) + Spaced(b) + Spaced(c);
  }

  lemma SpacedPartsOfFour(a: string, b: string, c: string, d: string)
    ensures SpacedParts([a, b, c, d]) == Spaced(a) + Spaced(b) + Spaced(c) + Spaced(d)
  {
    SpacedPartsOfThree(b, c, d);
    assert [a, b, c, d][1..] == [b, c, d];
    assert Spaced(a) + (Spaced(b) + Spaced(c) + Spaced(d)) == Spaced(a) + Spaced(b) + Spaced(c) + Spaced(d);
  }

  /** A class list of two non-empty classes and an optional third. */
  lemma CnOfThree(a: string, b: string, c: string)
    requires a != "" && b != ""
    ensures Cn([a, b, c]) == a + " " + b + Spaced(c)
  {
    SpacedCnOfThree(a, b, c);
    SpacedInverse(Cn([a, b, c]), a + " " + b + Spaced(c));
  }

  lemma SpacedCnOfThree(a: string, b: string, c: string)
    requires a != "" && b != ""
    ensures Spaced(Cn([a, b, c])) == " " + (a + " " + b + Spaced(c))
  {
    CnSpacedOfThree(a, b, c);
    SpacedConcatThree(a, b, c);
  }

  lemma CnSpacedOfThree(a: string, b: string, c: string)
    ensures Spaced(Cn([a, b, c])) == Spaced(a) + Spaced(b) + Spaced(c)
  {
    CnSpaced([a, b, c]);
    SpacedPartsOfThree(a, b, c);
  }

  lemma SpacedConcatThree(a: string, b: string, c: string)
    requires a != "" && b != ""
    ensures Spaced(a) + Spaced(b) + Spaced(c) == " " + (a + " " + b + Spaced(c))
  {
  }

  /** A class list led by a non-empty class, followed by three optional ones. */
  lemma CnOfFour(a: string, b: string, c: string, d: string)
    requires a != ""
    ensures Cn([a, b, c, d]) == a + Spaced(b) + Spaced(c) + Spaced(d)
  {
    SpacedCnOfFour(a, b, c, d);
    SpacedInverse(Cn([a, b, c, d]), a + Spaced(b) + Spaced(c) + Spaced(d));
  }

  lemma SpacedCnOfFour(a: string, b: string, c: string, d: string)
    requires a != ""
    ensures Spaced(Cn([a, b, c, d])) == " " + (a + Spaced(b) + Spaced(c) + Spaced(d))
  {
    CnSpacedOfFour(a, b, c, d);
    SpacedConcatFour(a, b, c, d);
  }

  lemma CnSpacedOfFour(a: string, b: string, c: string, d: string)
    ensures Spaced(Cn([a, b, c, d])) == Spaced(a) + Spaced(b) + Spaced(c) + Spaced(d)
  {
    CnSpaced([a, b, c, d]);
    SpacedPartsOfFour(a, b, c, d);
  }

  lemma SpacedConcatFour(a: string, b: string, c: string, d: string)
    requires a != ""
    ensures Spaced(a) + Spaced(b) + Spaced(c) + Spaced(d) == " " + (a + Spaced(b) + Spaced(c) + Spaced(d))
  {
  }

  /** `cn` of three non-empty classes and an optional fourth. */
  function CnLedByThree(a: string, b: string, c: string, d: string): (r: string)
    requires a != "" && b != "" && c != ""
    ensures r == a + " " + b + " " + c + Spaced(d)
  {
    CnOfFourNonEmpty(a, b, c, d);
    Cn([a, b, c, d])
  }

  /** A class list of three non-empty classes and an optional fourth. */
  lemma CnOfFourNonEmpty(a: string, b: string, c: string, d: string)
    requires a != "" && b != "" && c != ""
    ensures Cn([a, b, c, d]) == a + " " + b + " " + c + Spaced(d)
  {
    CnOfFour(a, b, c, d);
    SpacedNonEmpty(a, b, c, d);
  }

  lemma SpacedNonEmpty(a: string, b: string, c: string, d: string)
    requires b != "" && c != ""
    ensures a + Spaced(b) + Spaced(c) + Spaced(d) == a + " " + b + " " + c + Spaced(d)
  {
  }

  lemma NonEmptyFacts(parts: seq<string>)
    ensures NonEmpty(parts) == [] <==> forall i :: 0 <= i < |parts| ==> parts[i] == ""
    ensures |parts| > 0 && parts[0] != "" ==> NonEmpty(parts)[0] == parts[0]
  {
    if NonEmpty(parts) == [] {
      forall i | 0 <= i < |parts| ensures parts[i] == "" {
        assert parts[i] in parts;
      }
    }
  }

  // ---------------------------------------------------------------------------
  // Items.

  datatype Span = Span(col: string, row: string)

  /** The eight [column, row] spans items cycle through. */
  const Patterns: seq<Span> := [
    Span("col-span-2 md:col-span-3 lg:col-span-4", "row-span-2"),
    Span("col-span-2 md:col-span-2", "row-span-1"),
    Span("col-span-1", "row-span-1"),
    Span("col-span-2 md:col-span-3", "row-span-2"),
    Span("col-span-2 md:col-span-2", "row-span-1"),
    Span("col-span-1", "row-span-2"),
    Span("col-span-2 md:col-span-3 lg:col-span-4", "row-span-2"),
    Span("col-span-1", "row-span-1")
  ]

  /** `BENTO_PATTERNS[index % 8]`: JavaScript's `%` keeps the sign of a negative index,
      so only the negative multiples of 8 (which give -0) find a pattern. */
  function PatternAt(index: int): (p: Option<Span>)
    ensures index >= 0 ==> p == Some(Patterns[index % 8])
    ensures index < 0 ==> (p.Some? <==> index % 8 == 0)
    ensures index < 0 && index % 8 == 0 ==> p == Some(Patterns[0])
    ensures p.Some? ==> p.value in Patterns
  {
    var r := Rem(index, |Patterns|);
    if r >= 0 then Some(Patterns[r]) else None
  }

  /** The span props an item may override. */
  datatype SpanOverride = SpanOverride(col: Option<string>, row: Option<string>)

  datatype SpanResult = Spans(col: string, row: string) | TypeErrorThrown

  function OverrideCol(span: Option<SpanOverride>): Option<string> {
    if span.Some? then span.value.col else None
  }

  function OverrideRow(span: Option<SpanOverride>): Option<string> {
    if span.Some? then span.value.row else None
  }

  /** BentoGridItem's `span?.col || pattern.col` and `span?.row || pattern.row`: a
      non-empty override wins, otherwise the pattern is read, which throws when there
      is none. */
  function ItemSpan(index: int, span: Option<SpanOverride>): (r: SpanResult)
    ensures r.TypeErrorThrown? <==>
              PatternAt(index).None? && (!Truthy(OverrideCol(span)) || !Truthy(OverrideRow(span)))
    ensures r.Spans? && Truthy(OverrideCol(span)) ==> r.col == OverrideCol(span).value
    ensures r.Spans? && !Truthy(OverrideCol(span)) ==> r.col == PatternAt(index).value.col
    ensures r.Spans? && Truthy(OverrideRow(span)) ==> r.row == OverrideRow(span).value
    ensures r.Spans? && !Truthy(OverrideRow(span)) ==> r.row == PatternAt(index).value.row
  {
    var pattern := PatternAt(index);
    var col, row := OverrideCol(span), OverrideRow(span);
    if !Truthy(col) && pattern.None? then TypeErrorThrown
    else if !Truthy(row) && pattern.None? then TypeErrorThrown
    else Spans(if Truthy(col) then col.value else pattern.value.col,
               if Truthy(row) then row.value else pattern.value.row)
  }

  /** Items eight places apart get the same span. */
  lemma SpanRepeatsEveryEight(index: nat, span: Option<SpanOverride>)
    ensures ItemSpan(index + 8, span) == ItemSpan(index, span)
  {
    assert (index + 8) % 8 == index % 8;
  }

  /** Items at non-negative positions never throw. */
  lemma NonNegativeIndexHasSpan(index: nat, span: Option<SpanOverride>)
    ensures ItemSpan(index, span).Spans?
  {
  }

  /** The item's class list. */
  function ItemClasses(index: int, span: Option<SpanOverride>, className: string): (r: Option<string>)
    ensures r.None? <==> ItemSpan(index, span).TypeErrorThrown?
    ensures r.Some? ==>
              r.value == ItemSpan(index, span).col + " " + ItemSpan(index, span).row + Spaced(className)
  {
    var s := ItemSpan(index, span);
    if s.TypeErrorThrown? then None
    else
      assert s.col != "" && s.row != "" by {
        if !Truthy(OverrideCol(span)) || !Truthy(OverrideRow(span)) {
          assert PatternAt(index).value in Patterns;
        }
      }
      CnOfThree(s.col, s.row, className);
      Some(Cn([s.col, s.row, className]))
  }

  /** Removing the leading space of a non-empty spaced word gives the word back. */
  lemma SpacedInverse(word: string, expected: string)
    requires Spaced(word) == " " + expected
    ensures word == expected
  {
    assert word != "";
    assert word == (" " + word)[1..];
  }

  // ---------------------------------------------------------------------------
  // The container.

  datatype Columns = Columns(sm: Option<int>, md: Option<int>, lg: Option<int>)
  datatype RowHeight = RowHeight(base: Option<int>, sm: Option<int>, md: Option<int>)
  datatype Gap = SmallGap | MediumGap | LargeGap

  const DefaultColumns: Columns := Columns(Some(4), Some(5), Some(6))
  const DefaultRowHeight: RowHeight := RowHeight(Some(120), Some(140), Some(160))
  const DefaultGap: Gap := MediumGap

  /** A breakpoint's column class: only the counts 3 to 6 have one. */
  function BreakpointClass(breakpoint: string, count: Option<int>): (c: string)
    ensures c != "" <==> count.Some? && 3 <= count.value <= 6
    ensures c != "" ==> c == breakpoint + ":grid-cols-" + NatToString(count.value)
  {
    if count.Some? && 3 <= count.value <= 6 then
      breakpoint + ":grid-cols-" + NatToString(count.value)
    else ""
  }

  function ColumnsOf(columns: Option<Columns>): Columns {
    if columns.Some? then columns.value else DefaultColumns
  }

  /** getColumnClasses: two columns on the smallest screens, then the breakpoint classes. */
  function ColumnClasses(columns: Option<Columns>): (c: string)
    ensures c == "grid-cols-2" + Spaced(BreakpointClass("sm", ColumnsOf(columns).sm))
                 + Spaced(BreakpointClass("md", ColumnsOf(columns).md)) + Spaced(BreakpointClass("lg", ColumnsOf(columns).lg))
  {
    var cols := ColumnsOf(columns);
    var sm, md, lg := BreakpointClass("sm", cols.sm), BreakpointClass("md", cols.md), BreakpointClass("lg", cols.lg);
    CnOfFour("grid-cols-2", sm, md, lg);
    Cn(["grid-cols-2", sm, md, lg])
  }

  lemma ColumnClassesNonEmpty(columns: Option<Columns>)
    ensures ColumnClasses(columns) != ""
  {
  }

  /** With no `columns` prop the grid grows to 4, 5 and 6 columns. */
  lemma DefaultColumnsHaveEveryBreakpoint()
    ensures BreakpointClass("sm", DefaultColumns.sm) == "sm:grid-cols-4"
    ensures BreakpointClass("md", DefaultColumns.md) == "md:grid-cols-5"
    ensures BreakpointClass("lg", DefaultColumns.lg) == "lg:grid-cols-6"
  {
  }

  function GapClasses(gap: Gap): string {
    match gap
    case SmallGap => "gap-1.5 sm:gap-2"
    case MediumGap => "gap-2 sm:gap-3"
    case LargeGap => "gap-3 sm:gap-4"
  }

  lemma GapClassesNonEmpty(gap: Gap)
    ensures GapClasses(gap) != ""
  {
  }

  /** The `gap` prop, "md" when absent. */
  function GapOf(gap: Option<Gap>): Gap {
    if gap.Some? then gap.value else DefaultGap
  }

  /** The container's class list. */
  function GridClasses(columns: Option<Columns>, gap: Option<Gap>, className: string): (c: string)
    ensures c == "grid " + ColumnClasses(columns) + " " + GapClasses(GapOf(gap)) + Spaced(className)
  {
    ColumnClassesNonEmpty(columns);
    GapClassesNonEmpty(GapOf(gap));
    CnLedByThree("grid", ColumnClasses(columns), GapClasses(GapOf(gap)), className)
  }

  const AutoRowsPrefix: string := "minmax("
  const AutoRowsSuffix: string := "px, auto)"

  /** `${rowHeight.base}`: the number, or "undefined" when the prop object lacks it. */
  function BaseText(rowHeight: Option<RowHeight>): string {
    var h := if rowHeight.Some? then rowHeight.value else DefaultRowHeight;
    if h.base.Some? then IntToString(h.base.value) else "undefined"
  }

  /** The container's `gridAutoRows` style: at least the base row height, growing to fit. */
  function GridAutoRows(rowHeight: Option<RowHeight>): (style: string)
    ensures |style| == |AutoRowsPrefix| + |BaseText(rowHeight)| + |AutoRowsSuffix|
    ensures style[..|AutoRowsPrefix|] == AutoRowsPrefix
    ensures style[|AutoRowsPrefix|..|style| - |AutoRowsSuffix|] == BaseText(rowHeight)
    ensures style[|style| - |AutoRowsSuffix|..] == AutoRowsSuffix
  {
    AutoRowsPrefix + BaseText(rowHeight) + AutoRowsSuffix
  }

  /** Different base heights give different styles. */
  lemma AutoRowsDistinguishHeights(a: RowHeight, b: RowHeight)
    requires a.base.Some? && b.base.Some?
    requires GridAutoRows(Some(a)) == GridAutoRows(Some(b))
    ensures a.base == b.base
  {
    var sa, sb := GridAutoRows(Some(a)), GridAutoRows(Some(b));
    assert BaseText(Some(a)) == sa[|AutoRowsPrefix|..|sa| - |AutoRowsSuffix|];
    assert BaseText(Some(b)) == sb[|AutoRowsPrefix|..|sb| - |AutoRowsSuffix|];
    IntToStringInjective(a.base.value, b.base.value);
  }

  // ---------------------------------------------------------------------------
  // Image cards.

  datatype Wrapper = Anchor | Button | Bare

  /** A card with a non-empty href opens it in a new tab; otherwise a card with a click
      handler is a button; otherwise it is the bare content. */
  function CardWrapper(href: Option<string>, hasOnClick: bool): (w: Wrapper)
    ensures w == Anchor <==> Truthy(href)
    ensures w == Button <==> !Truthy(href) && hasOnClick
    ensures w == Bare <==> !Truthy(href) && !hasOnClick
  {
    if Truthy(href) then Anchor else if hasOnClick then Button else Bare
  }

  /** The hover caption appears when any of title, subtitle and meta is non-empty. */
  predicate CaptionVisible(title: Option<string>, subtitle: Option<string>, meta: Option<string>) {
    Truthy(title) || Truthy(subtitle) || Truthy(meta)
  }

  /** The dot between subtitle and meta appears only when both are non-empty. */
  predicate SeparatorVisible(subtitle: Option<string>, meta: Option<string>) {
    Truthy(subtitle) && Truthy(meta)
  }

  /** The separator text exactly as the component's file holds it: the two characters
      U+00C2 U+00B7 (a middle dot stored in a doubly encoded form), which is what renders. */
  const Separator: string := "\U{00C2}\U{00B7}"

  /** The parts of the caption's second line, in order. */
  function CaptionLine(subtitle: Option<string>, meta: Option<string>): (parts: seq<string>)
    ensures |parts| <= 3
    ensures SeparatorVisible(subtitle, meta) ==> parts == [subtitle.value, Separator, meta.value]
    ensures !SeparatorVisible(subtitle, meta) ==> |parts| <= 1
    ensures parts != [] <==> Truthy(subtitle) || Truthy(meta)
    ensures Truthy(subtitle) ==> parts[0] == subtitle.value
    ensures Truthy(meta) ==> parts[|parts| - 1] == meta.value
  {
    (if Truthy(subtitle) then [subtitle.value] else [])
    + (if SeparatorVisible(subtitle, meta) then [Separator] else [])
    + (if Truthy(meta) then [meta.value] else [])
  }
}
