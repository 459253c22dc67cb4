/**
 * The document outline. The page's scroll-spy and chapter navigation find
 * headings by their `section` elements; this module reads those elements
 * back out of a compiled tree and shows that they are exactly the heading
 * and subheading blocks, in document order and at every nesting depth, each
 * carrying its block's id, level and text. After the section pass those ids
 * are pairwise distinct.
 */
module Outline {
  import opened Blocks
  import opened Decimal
  import opened Dom
  import opened GridLayout
  import opened Builders
  import opened SectionIds
  import opened SectionPaths
  import opened Compiler
  import opened CompilerFacts

  /** What a `section` element tells a reader: its id, its `data-level`, its title text. */
  datatype Entry = Entry(id: string, level: string, title: string)

  function SectionEntry(n: Node): Entry {
    Entry(if "id" in n.attrs then n.attrs["id"] else "",
          if "data-level" in n.attrs then n.attrs["data-level"] else "",
          if |n.children| > 0 then n.children[0].text else "")
  }

  /** The `section` elements of a tree, in document order. */
  function NodeSections(n: Node): seq<Entry>
    decreases n, 1
  {
    (if n.tag == "section" then [SectionEntry(n)] else []) + Sections(n.children)
  }

  function Sections(ns: seq<Node>): seq<Entry>
    decreases ns, 0
  {
    if |ns| == 0 then [] else NodeSections(ns[0]) + Sections(ns[1..])
  }

  /** The entry each heading or subheading block should produce, in document order. */
  function ListOutline(bs: seq<Block>): seq<Entry>
    decreases bs, 1
  {
    if |bs| == 0 then [] else BlockOutline(bs[0]) + ListOutline(bs[1..])
  }

  function BlockOutline(b: Block): seq<Entry>
    decreases b, 0
  {
    match b.body
    case Heading(text, _) => [Entry(b.sectionId, IntToString(b.level), text)]
    case Subheading(text, _) => [Entry(b.sectionId, IntToString(b.level), text)]
    case GridRow(_, cols) => ColumnsOutline(cols)
    case _ => []
  }

  function ColumnsOutline(cols: seq<Column>): seq<Entry>
    decreases cols, 0
  {
    if |cols| == 0 then [] else ListOutline(cols[0].children) + ColumnsOutline(cols[1..])
  }

  // ---------------------------------------------------- reading sections

  lemma {:induction false} SectionsConcat(a: seq<Node>, b: seq<Node>)
    ensures Sections(a + b) == Sections(a) + Sections(b)
    decreases |a|
  {
    if |a| == 0 {
      assert a + b == b;
    } else {
      assert (a + b)[0] == a[0];
      assert (a + b)[1..] == a[1..] + b;
      SectionsConcat(a[1..], b);
    }
  }

  lemma SectionsOne(n: Node)
    ensures Sections([n]) == NodeSections(n)
  {
    assert [n][1..] == [];
  }

  /** A list of section-free trees is section-free. */
  lemma {:induction false} AllFree(ns: seq<Node>)
    requires forall i :: 0 <= i < |ns| ==> NodeSections(ns[i]) == []
    ensures Sections(ns) == []
    decreases |ns|
  {
    if |ns| > 0 {
      AllFree(ns[1..]);
    }
  }

  /** A node that is not a section, over section-free children, is section-free. */
  lemma ParentFree(n: Node)
    requires n.tag != "section"
    requires forall i :: 0 <= i < |n.children| ==> NodeSections(n.children[i]) == []
    ensures NodeSections(n) == []
  {
    AllFree(n.children);
  }

  lemma LeafFree(n: Node)
    requires n.tag != "section" && n.children == []
    ensures NodeSections(n) == []
  {
  }

  lemma TextElementFree(tag: string, classes: seq<string>, text: string)
    requires tag != "section"
    ensures NodeSections(TextElement(tag, classes, text)) == []
  {
    LeafFree(TextElement(tag, classes, text));
  }

  lemma TextNodeFree(s: string)
    ensures NodeSections(TextNode(s)) == []
  {
    LeafFree(TextNode(s));
  }

  lemma MarkupFree(html: string)
    ensures NodeSections(MarkupNode(html)) == []
  {
    LeafFree(MarkupNode(html));
  }

  // -------------------------------------------- builders other than headings

  lemma VideoFree(embedCode: string, videoUrl: string, description: string)
    ensures NodeSections(BuildVideo(embedCode, videoUrl, description)) == []
  {
    var embed, link, desc := EmbedPart(embedCode), LinkPart(videoUrl), DescriptionPart(description);
    assert Sections(embed) == [] by { EmbedPartFree(embedCode); }
    assert Sections(link) == [] by { LinkPartFree(videoUrl); }
    assert Sections(desc) == [] by {
      if description != "" {
        TextElementFree("div", ["ug-video-description"], description);
        AllFree(desc);
      }
    }
    SectionsConcat(embed, link);
    SectionsConcat(embed + link, desc);
  }

  lemma EmbedPartFree(embedCode: string)
    ensures Sections(EmbedPart(embedCode)) == []
  {
    if embedCode != "" {
      MarkupFree(embedCode);
      var inner := Element("div", [], [MarkupNode(embedCode)]);
      ParentFree(inner);
      ParentFree(Element("div", ["ug-video-embed-wrapper"], [inner]));
      AllFree(EmbedPart(embedCode));
    }
  }

  lemma LinkPartFree(videoUrl: string)
    ensures Sections(LinkPart(videoUrl)) == []
  {
    if videoUrl != "" {
      var icon := Element("i", ["bi", "bi-box-arrow-up-right"], []);
      LeafFree(icon);
      var link := Node("a", ["ug-element-text-decoration-none"], map["href" := videoUrl, "target" := "_blank"], map[],
        VideoLinkText, [icon]);
      ParentFree(link);
      ParentFree(VideoLink(videoUrl));
      AllFree(LinkPart(videoUrl));
    }
  }

  lemma RichTextFree(markup: string)
    ensures NodeSections(BuildRichText(markup)) == []
  {
    MarkupFree(markup);
    ParentFree(BuildRichText(markup));
  }

  lemma AlertFree(a: AlertType, message: string)
    ensures NodeSections(BuildAlert(a, message)) == []
  {
    var r := BuildAlert(a, message);
    LeafFree(r.children[0]);
    TextNodeFree(" " + message);
    ParentFree(r);
  }

  lemma ListFree(tag: string, cls: string, items: seq<string>)
    requires tag != "section"
    ensures NodeSections(BuildList(tag, cls, items)) == []
  {
    var r := BuildList(tag, cls, items);
    forall i | 0 <= i < |r.children| ensures NodeSections(r.children[i]) == [] {
      TextNodeFree(items[i]);
      ParentFree(ListItem(items[i]));
    }
    ParentFree(r);
  }

  lemma StepItemFree(i: nat, s: Step)
    ensures NodeSections(StepItem(i, s)) == []
  {
    var li := StepItem(i, s);
    TextElementFree("span", ["ug-steps-indicator"], NatToString(i + 1));
    TextElementFree("div", ["ug-steps-content-text"], s.text);
    TextElementFree("div", ["ug-steps-content-description"], s.description);
    ParentFree(li.children[1]);
    ParentFree(li);
  }

  lemma StepsFree(orientation: string, steps: seq<Step>)
    requires BuildSteps(orientation, steps).Some?
    ensures NodeSections(BuildSteps(orientation, steps).value) == []
  {
    var r := BuildSteps(orientation, steps).value;
    var items := StepItems(steps, 0);
    assert r.children == items;
    forall i | 0 <= i < |items| ensures NodeSections(items[i]) == [] {
      StepItemFree(i, steps[i]);
    }
    ParentFree(r);
  }

  lemma CodeFree(code: string, language: string)
    requires BuildCode(code, language).Some?
    ensures NodeSections(BuildCode(code, language).value) == []
  {
    var r := BuildCode(code, language).value;
    LeafFree(r.children[0]);
    ParentFree(r);
  }

  lemma TableFree(style: TableStyle, data: TableData)
    ensures NodeSections(BuildTable(style, data)) == []
  {
    var header := HeaderCells(style, data.header);
    HeaderRowFree(style, data.header);
    var thead := Element("thead", [style.head], [Element("tr", [], header)]);
    ParentFree(thead);
    var rows := BodyRows(style, data.rows);
    BodyRowsFree(style, data.rows);
    var tbody := Element("tbody", ["ug-table-body"], rows);
    ParentFree(tbody);
    var table := Element("table", style.table, [thead, tbody]);
    ParentFree(table);
    ParentFree(BuildTable(style, data));
  }

  lemma HeaderRowFree(style: TableStyle, texts: seq<string>)
    ensures NodeSections(Element("tr", [], HeaderCells(style, texts))) == []
  {
    var header := HeaderCells(style, texts);
    forall i | 0 <= i < |header| ensures NodeSections(header[i]) == [] {
      LeafFree(header[i]);
    }
    ParentFree(Element("tr", [], header));
  }

  lemma BodyRowsFree(style: TableStyle, rows: seq<TableRow>)
    ensures forall i :: 0 <= i < |rows| ==> NodeSections(BodyRows(style, rows)[i]) == []
  {
    var built := BodyRows(style, rows);
    forall i | 0 <= i < |rows| ensures NodeSections(built[i]) == [] {
      BodyRowFree(style, rows[i]);
    }
  }

  lemma BodyRowFree(style: TableStyle, row: TableRow)
    ensures NodeSections(Element("tr", [style.row], BodyCells(style, row.cells))) == []
  {
    var cells := BodyCells(style, row.cells);
    forall j | 0 <= j < |cells| ensures NodeSections(cells[j]) == [] {
      LeafFree(cells[j]);
    }
    ParentFree(Element("tr", [style.row], cells));
  }

  lemma LinkFree(url: string, target: string, linkText: string)
    ensures NodeSections(BuildLink(url, target, linkText)) == []
  {
    LeafFree(LinkIcon());
    ParentFree(BuildLink(url, target, linkText));
  }

  lemma ImageFree(url: string, altText: string, caption: string)
    ensures Sections(BuildImage(url, altText, caption)) == []
  {
    var r := BuildImage(url, altText, caption);
    forall i | 0 <= i < |r| ensures NodeSections(r[i]) == [] {
      LeafFree(r[i]);
    }
    AllFree(r);
  }

  lemma SpacerFree(body: Body)
    ensures NodeSections(BuildSpacer(body)) == []
  {
    LeafFree(BuildSpacer(body));
  }

  lemma ParagraphFree(text: string, align: string, indent: bool, margin: bool)
    requires BuildParagraph(text, align, indent, margin).Some?
    ensures NodeSections(BuildParagraph(text, align, indent, margin).value) == []
  {
    LeafFree(BuildParagraph(text, align, indent, margin).value);
  }

  /** A heading builder's node is one section, read back as the block's id, level and text. */
  lemma SectionRead(kind: HeadingKind, sectionId: string, level: int, text: string, margin: bool)
    ensures NodeSections(BuildSection(kind, sectionId, level, text, margin)) == [Entry(sectionId, IntToString(level), text)]
  {
    var r := BuildSection(kind, sectionId, level, text, margin);
    LeafFree(r.children[0]);
    AllFree(r.children);
  }

  // ------------------------------------------------ the outline theorem

  /**
   * The `section` elements of a completed compilation are the outline of
   * its input: one per heading or subheading block, in document order, with
   * that block's id, level and text.
   */
  lemma {:induction false} ListSections(bs: seq<Block>)
    requires CompileList(bs, Intended).completed
    ensures Sections(CompileList(bs, Intended).nodes) == ListOutline(bs)
    decreases bs, 1
  {
    if |bs| == 0 {
    } else {
      CompileListStep(bs, Intended);
      var first := CompileBlock(bs[0], Intended);
      BlockSections(bs[0]);
      ListSections(bs[1..]);
      SectionsConcat(first.nodes, CompileList(bs[1..], Intended).nodes);
    }
  }

  lemma {:induction false} BlockSections(b: Block)
    requires CompileBlock(b, Intended).completed
    ensures Sections(CompileBlock(b, Intended).nodes) == BlockOutline(b)
    decreases b, 0
  {
    var body := b.body;
    if body.Unknown? {
      UnknownIsSkipped(b, Intended);
    } else if body.CodeBlock? {
      CodeBlockSections(b);
    } else if body.GridRow? {
      OneBuilderPerBlock(b, Intended);
      GridRowSections(body.align, body.columns);
    } else {
      LeafBlockSections(b);
    }
  }

  lemma CodeBlockSections(b: Block)
    requires b.body.CodeBlock? && CompileBlock(b, Intended).completed
    ensures Sections(CompileBlock(b, Intended).nodes) == []
  {
    CodeBlockFallsThrough(b, Intended);
    var nodes := CompileBlock(b, Intended).nodes;
    CodeFree(b.body.code, b.body.language);
    SpacerFree(b.body);
    AllFree(nodes);
  }

  /** A block without nested blocks: one section for a heading, none otherwise. */
  lemma LeafBlockSections(b: Block)
    requires !b.body.Unknown? && !b.body.CodeBlock? && !b.body.GridRow?
    requires CompileBlock(b, Intended).completed
    ensures Sections(CompileBlock(b, Intended).nodes) == BlockOutline(b)
  {
    var body := b.body;
    var nodes := CompileBlock(b, Intended).nodes;
    assert CompileBlock(b, Intended) == Perform(OwnBuilder(body), b, Intended) by {
      OneBuilderPerBlock(b, Intended);
    }
    if body.Heading? {
      SectionsOne(nodes[0]);
      SectionRead(H2, b.sectionId, b.level, body.text, body.margin);
    } else if body.Subheading? {
      SectionsOne(nodes[0]);
      SectionRead(H3, b.sectionId, b.level, body.text, body.margin);
    } else if body.Image? {
      ImageFree(body.url, body.altText, body.caption);
    } else {
      SingleNodeFree(b);
      SectionsOne(nodes[0]);
    }
  }

  /** The builders that emit one node and no section. */
  lemma SingleNodeFree(b: Block)
    requires !b.body.Unknown? && !b.body.CodeBlock? && !b.body.Heading? && !b.body.Subheading?
    requires !b.body.GridRow? && !b.body.Image?
    requires Perform(OwnBuilder(b.body), b, Intended).completed
    ensures |Perform(OwnBuilder(b.body), b, Intended).nodes| == 1
    ensures NodeSections(Perform(OwnBuilder(b.body), b, Intended).nodes[0]) == []
  {
    match b.body
    case Video(e, u, d) => VideoFree(e, u, d);
    case RichText(m) => RichTextFree(m);
    case Alert(a, m) => AlertFree(a, m);
    case Paragraph(t, al, i, m) => ParagraphFree(t, al, i, m);
    case Spacer(_) => SpacerFree(b.body);
    case BulletList(items) => ListFree("ul", "ug-bullet-list", items);
    case NumberedList(items) => ListFree("ol", "ug-numbered-list", items);
    case Steps(o, steps) => StepsFree(o, steps);
    case GeneralTable(t) => TableFree(GeneralStyle, t);
    case ParameterTable(t) => TableFree(ParameterStyle, t);
    case Link(u, t, l) => LinkFree(u, t, l);
  }

  lemma {:induction false} GridRowSections(align: string, cols: seq<Column>)
    requires CompileGridRow(align, cols, Intended).completed
    ensures Sections(CompileGridRow(align, cols, Intended).nodes) == ColumnsOutline(cols)
    decreases cols, 2
  {
    var columns := CompileColumns(cols, Intended);
    GridRowCompletes(align, cols);
    ColumnsSections(cols);
    var r := CompileGridRow(align, cols, Intended).nodes;
    var preview := r[0].children[0];
    assert preview.children == columns.nodes;
    SectionsOne(preview);
    SectionsOne(r[0]);
  }

  lemma {:induction false} ColumnsSections(cols: seq<Column>)
    requires ColumnsRender(cols)
    ensures Sections(CompileColumns(cols, Intended).nodes) == ColumnsOutline(cols)
    decreases cols, 1
  {
    if |cols| > 0 {
      var first := CompileColumn(cols[0], Intended);
      ColumnsCompletes(cols);
      ColumnSections(cols[0]);
      ColumnsSections(cols[1..]);
      SectionsConcat(first.nodes, CompileColumns(cols[1..], Intended).nodes);
    }
  }

  lemma {:induction false} ColumnSections(c: Column)
    requires ListRenders(c.children)
    ensures Sections(CompileColumn(c, Intended).nodes) == ListOutline(c.children)
    decreases c, 0
  {
    var inner := CompileList(c.children, Intended);
    ListCompletes(c.children);
    assert WrapperClasses(c).Some? by {
      WrapperClassesOf(c);
    }
    assert CompileColumn(c, Intended).nodes ==
             [Node("div", WrapperClasses(c).value, map[], c.style, "", [Element("div", ["ug-grid-col-content"], inner.nodes)])];
    WrapperSections(WrapperClasses(c).value, c.style, inner.nodes);
    ListSections(c.children);
  }

  /** A column's wrapper and content box add no section of their own. */
  lemma WrapperSections(classes: seq<string>, style: map<string, string>, ns: seq<Node>)
    ensures Sections([Node("div", classes, map[], style, "", [Element("div", ["ug-grid-col-content"], ns)])]) == Sections(ns)
  {
    var content := Element("div", ["ug-grid-col-content"], ns);
    SectionsOne(Node("div", classes, map[], style, "", [content]));
    SectionsOne(content);
  }

  // ------------------------------------------------------- distinct ids

  function Ids(es: seq<Entry>): (r: seq<string>)
    ensures |r| == |es|
    ensures forall i :: 0 <= i < |es| ==> r[i] == es[i].id
    decreases |es|
  {
    if |es| == 0 then [] else [es[0].id] + Ids(es[1..])
  }

  lemma IdsConcat(a: seq<Entry>, b: seq<Entry>)
    ensures Ids(a + b) == Ids(a) + Ids(b)
  {
  }

  /** Every outline entry's id is a block's id, and no id is used more often than blocks carry it. */
  lemma {:induction false} ListOutlineIds(bs: seq<Block>)
    ensures multiset(Ids(ListOutline(bs))) <= multiset(ListIds(bs))
    decreases bs, 1
  {
    if |bs| > 0 {
      BlockOutlineIds(bs[0]);
      ListOutlineIds(bs[1..]);
      IdsConcat(BlockOutline(bs[0]), ListOutline(bs[1..]));
    }
  }

  lemma {:induction false} BlockOutlineIds(b: Block)
    ensures multiset(Ids(BlockOutline(b))) <= multiset(BlockIds(b))
    decreases b, 0
  {
    if b.body.GridRow? {
      ColumnsOutlineIds(b.body.columns);
    }
  }

  lemma {:induction false} ColumnsOutlineIds(cols: seq<Column>)
    ensures multiset(Ids(ColumnsOutline(cols))) <= multiset(ColumnIds(cols))
    decreases cols, 0
  {
    if |cols| > 0 {
      ListOutlineIds(cols[0].children);
      ColumnsOutlineIds(cols[1..]);
      IdsConcat(ListOutline(cols[0].children), ColumnsOutline(cols[1..]));
    }
  }

  lemma {:induction false} AtMostOnce(b: seq<string>, x: string)
    requires NoDuplicates(b)
    ensures multiset(b)[x] <= 1
    decreases |b|
  {
    if |b| > 0 {
      assert b == [b[0]] + b[1..];
      AtMostOnce(b[1..], x);
      if x == b[0] {
        assert x !in b[1..] by {
          forall k | 0 <= k < |b[1..]| ensures b[1..][k] != x {
            assert b[1..][k] == b[k + 1];
          }
        }
      }
    }
  }

  lemma TwiceCounted(a: seq<string>, i: nat, j: nat)
    requires i < j < |a| && a[i] == a[j]
    ensures multiset(a)[a[i]] >= 2
  {
    assert a == a[..j] + a[j..];
    assert a[..j][i] == a[i];
    assert a[j..][0] == a[j];
  }

  lemma DistinctWithin(a: seq<string>, b: seq<string>)
    requires multiset(a) <= multiset(b) && NoDuplicates(b)
    ensures NoDuplicates(a)
  {
    forall i, j | 0 <= i < j < |a| ensures a[i] != a[j] {
      if a[i] == a[j] {
        TwiceCounted(a, i, j);
        AtMostOnce(b, a[i]);
      }
    }
  }

  // ------------------------------------------------------------ levels

  /** Every entry has the level of a heading ("1") or of a subheading ("2"). */
  predicate LevelsOk(es: seq<Entry>) {
    forall i :: 0 <= i < |es| ==> es[i].level == "1" || es[i].level == "2"
  }

  lemma LevelsOkConcat(a: seq<Entry>, b: seq<Entry>)
    requires LevelsOk(a) && LevelsOk(b)
    ensures LevelsOk(a + b)
  {
    forall i | 0 <= i < |a + b| ensures (a + b)[i].level == "1" || (a + b)[i].level == "2" {
      if i >= |a| {
        assert (a + b)[i] == b[i - |a|];
      }
    }
  }

  /** After the section pass, every outline entry carries level "1" or "2", at any depth. */
  lemma {:induction false} AnnotatedListLevels(bs: seq<Block>, prefix: string, start: nat)
    ensures LevelsOk(ListOutline(AnnotateFrom(bs, prefix, start)))
    decreases bs, 1
  {
    if |bs| > 0 {
      var r := AnnotateFrom(bs, prefix, start);
      var rest := AnnotateFrom(bs[1..], prefix, start + 1);
      AnnotateFromStep(bs, prefix, start);
      assert r[0] == Generate(bs[0], start, prefix) && r[1..] == rest;
      AnnotatedBlockLevels(bs[0], start, prefix);
      AnnotatedListLevels(bs[1..], prefix, start + 1);
      LevelsOkConcat(BlockOutline(r[0]), ListOutline(rest));
    }
  }

  lemma {:induction false} AnnotatedBlockLevels(b: Block, i: nat, prefix: string)
    ensures LevelsOk(BlockOutline(Generate(b, i, prefix)))
    decreases b, 0
  {
    var g := Generate(b, i, prefix);
    if b.body.GridRow? {
      AnnotatedColumnsLevels(b.body.columns, SectionIdAt(prefix, i), 0);
    } else if b.body.Heading? {
      assert g.level == 1;
      assert IntToString(1) == "1";
    } else if b.body.Subheading? {
      assert g.level == 2;
      assert IntToString(2) == "2";
    }
  }

  lemma {:induction false} AnnotatedColumnsLevels(cols: seq<Column>, acc: string, j: nat)
    ensures LevelsOk(ColumnsOutline(AnnotateColumns(cols, acc, j)))
    decreases cols, 0
  {
    if |cols| > 0 {
      var acc' := acc + "-" + NatToString(j + 1);
      var r := AnnotateColumns(cols, acc, j);
      var rest := AnnotateColumns(cols[1..], acc', j + 1);
      assert r[1..] == rest;
      AnnotatedListLevels(cols[0].children, acc', 0);
      AnnotatedColumnsLevels(cols[1..], acc', j + 1);
      LevelsOkConcat(ListOutline(r[0].children), ColumnsOutline(rest));
    }
  }

  /** The section pass followed by the dispatcher, on a chapter's top-level blocks. */
  function AnnotateThenCompile(bs: seq<Block>): Outcome {
    CompileList(Annotate(bs, ""), Intended)
  }

  /**
   * When the chapter compiles, its `section` elements are the outline of
   * the annotated blocks, no two of them share an id, and each is at level
   * 1 or 2.
   */
  lemma ChapterOutline(bs: seq<Block>)
    requires AnnotateThenCompile(bs).completed
    ensures Sections(AnnotateThenCompile(bs).nodes) == ListOutline(Annotate(bs, ""))
    ensures NoDuplicates(Ids(Sections(AnnotateThenCompile(bs).nodes)))
    ensures LevelsOk(Sections(AnnotateThenCompile(bs).nodes))
  {
    AnnotatedListLevels(bs, "", 0);
    var annotated := Annotate(bs, "");
    ListSections(annotated);
    ListOutlineIds(annotated);
    SectionIdsUnique(bs);
    DistinctWithin(Ids(ListOutline(annotated)), ListIds(annotated));
  }
}
