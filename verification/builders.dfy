/**
 * The renderer's per-block builders (`createHeading`, `createParagraph`, ...),
 * each recast as a pure function from a block's payload to the node or nodes
 * it appends to the chapter. A builder that hands a computed token to
 * `classList.add` returns `None` when that call would throw; the node is then
 * never appended.
 *
 * Builders that copy text into the tree come with a reader that takes the
 * text back out, and a lemma that the round trip loses nothing.
 */
module Builders {
  import opened Blocks
  import opened Decimal
  import opened Dom
  import opened Alerts

  // ---------------------------------------------------------------- headings

  datatype HeadingKind = H2 | H3

  /**
   * `createHeading` (H2) and `createSubheading` (H3): a section carrying the
   * block's id and level around one title element.
   */
  function BuildSection(kind: HeadingKind, sectionId: string, level: int, text: string, margin: bool): (r: Node)
    ensures r.tag == "section" && r.text == ""
    ensures r.attrs == map["id" := sectionId, "data-level" := IntToString(level)]
    ensures |r.children| == 1 && r.children[0].children == []
    ensures r.children[0].tag == (if kind == H2 then "h2" else "h3")
    ensures r.children[0].text == text
    ensures r.children[0].attrs == map["data-section-title" := text]
    ensures |r.children[0].classes| >= 1 && r.children[0].classes[0] == (if kind == H2 then "ug-heading-h2" else "ug-heading-h3")
    ensures "with-margin" in r.children[0].classes <==> margin
    ensures r.children[0].classes == [if kind == H2 then "ug-heading-h2" else "ug-heading-h3"] + (if margin then ["with-margin"] else [])
  {
    var tag := if kind == H2 then "h2" else "h3";
    var base := [if kind == H2 then "ug-heading-h2" else "ug-heading-h3"];
    var classes := if margin then AddClass(base, "with-margin") else base;
    var title := Node(tag, classes, map["data-section-title" := text], map[], text, []);
    Node("section", [], map["id" := sectionId, "data-level" := IntToString(level)], map[], "", [title])
  }

  // --------------------------------------------------------------- paragraph

  function AlignClass(align: string): string {
    "with-align-" + align
  }

  /**
   * `createParagraph`. The alignment becomes the token "with-align-<align>",
   * which `classList.add` refuses when the alignment holds white space.
   */
  function BuildParagraph(text: string, align: string, indent: bool, margin: bool): (r: Option<Node>)
    ensures r.Some? <==> NoAsciiSpace(align)
    ensures r.Some? ==> r.value.tag == "p" && r.value.text == text && r.value.children == []
    ensures r.Some? ==> |r.value.classes| >= 1 && r.value.classes[0] == "ug-paragraph" && NoDuplicates(r.value.classes)
    ensures r.Some? ==> ("with-indent" in r.value.classes <==> indent)
    ensures r.Some? ==> ("with-margin" in r.value.classes <==> margin)
    ensures r.Some? ==> forall a :: AlignClass(a) in r.value.classes <==> align != "" && a == align
    ensures r.Some? ==> r.value.classes == ["ug-paragraph"] + (if align != "" then [AlignClass(align)] else [])
                                             + (if indent then ["with-indent"] else []) + (if margin then ["with-margin"] else [])
  {
    var c1 := AlignedClasses(align);
    if c1.None? then None
    else Some(Node("p", FlagClasses(c1.value, align, indent, margin), map[], map[], text, []))
  }

  /** The paragraph's own class, then its alignment token when one is given. */
  function AlignedClasses(align: string): (r: Option<seq<string>>)
    ensures r.Some? <==> NoAsciiSpace(align)
    ensures r.Some? ==> r.value == ["ug-paragraph"] + (if align != "" then [AlignClass(align)] else [])
  {
    NoAsciiSpaceConcat("with-align-", align);
    AlignClassesDiffer(align);
    if align != "" then TryAddClass(["ug-paragraph"], AlignClass(align)) else Some(["ug-paragraph"])
  }

  /** The indent and margin flags, added after the alignment. */
  function FlagClasses(cs: seq<string>, align: string, indent: bool, margin: bool): (r: seq<string>)
    requires cs == ["ug-paragraph"] + (if align != "" then [AlignClass(align)] else [])
    ensures |r| >= 1 && r[0] == "ug-paragraph" && NoDuplicates(r)
    ensures "with-indent" in r <==> indent
    ensures "with-margin" in r <==> margin
    ensures forall a :: AlignClass(a) in r <==> align != "" && a == align
    ensures r == cs + (if indent then ["with-indent"] else []) + (if margin then ["with-margin"] else [])
  {
    AlignClassesDiffer(align);
    assert NoDuplicates(cs);
    var c2 := if indent then AddClass(cs, "with-indent") else cs;
    if margin then AddClass(c2, "with-margin") else c2
  }

  /** An alignment class is never one of the paragraph's fixed classes. */
  lemma AlignClassesDiffer(align: string)
    ensures forall a :: AlignClass(a) != "ug-paragraph" && AlignClass(a) != "with-indent" && AlignClass(a) != "with-margin"
    ensures forall a :: AlignClass(a) == AlignClass(align) ==> a == align
  {
    forall a ensures AlignClass(a) != "ug-paragraph" && AlignClass(a) != "with-indent" && AlignClass(a) != "with-margin" {
      assert AlignClass(a)[0] == 'w' && AlignClass(a)[5] == 'a';
    }
    forall a | AlignClass(a) == AlignClass(align) ensures a == align {
      assert a == AlignClass(a)[11..];
    }
  }

  // ------------------------------------------------------------------- alert

  /**
   * `createAlert`: a box whose third class is the alert's colour, opening
   * with the bold icon label and followed by the message after a space.
   */
  function BuildAlert(a: AlertType, message: string): (r: Node)
    ensures r.tag == "div" && |r.classes| == 3
    ensures r.classes[0] == "ug-alert-preview" && r.classes[1] == "alert"
    ensures r.classes[2] == AlertClass(AlertTag(a)) && r.classes[2] != "light"
    ensures |r.children| == 2
    ensures r.children[0].tag == "strong" && r.children[0].text == Glyph(a) + " " + LabelWord(a)
    ensures r.children[1] == TextNode(" " + message)
  {
    AlertLookups(a);
    var badge := TextElement("strong", [], CardIcon(AlertTag(a)));
    Node("div", ["ug-alert-preview", "alert", AlertClass(AlertTag(a))], map[], map[], "", [badge, TextNode(" " + message)])
  }

  // --------------------------------------------------------------- rich text

  /** `createRichText`: the author's markup, kept opaque, inside one box. */
  function BuildRichText(markup: string): (r: Node)
    ensures r.tag == "div" && r.classes == ["ug-rich-text"]
    ensures ReadMarkup(r) == markup
  {
    Node("div", ["ug-rich-text"], map[], map[], "", if markup == "" then [] else [MarkupNode(markup)])
  }

  function ReadMarkup(n: Node): string {
    if |n.children| == 0 then "" else n.children[0].text
  }

  // ------------------------------------------------------------------ spacer

  function Abs(m: int): nat {
    if m < 0 then -m else m
  }

  /**
   * `n * 1.5` printed as a JavaScript number: an integer when `3n` is even,
   * otherwise the integer part and ".5", with the sign in front.
   */
  function OneAndHalf(n: int): (s: string)
    ensures |s| >= 1 && s[0] != 'N'
  {
    var m := 3 * n;
    if m % 2 == 0 then IntToString(m / 2)
    else (if m < 0 then "-" else "") + (NatToString(Abs(m) / 2) + ".5")
  }

  /** Reads a printed number of halves ("-4.5", "12") back as a count of halves. */
  function ParseHalves(s: string): Option<int> {
    if |s| == 0 then None
    else if s[0] == '-' then
      match ParseUnsignedHalves(s[1..])
      case Some(v) => Some(-v)
      case None => None
    else ParseUnsignedHalves(s)
  }

  predicate EndsInHalf(body: string) {
    |body| >= 2 && body[|body| - 2] == '.' && body[|body| - 1] == '5'
  }

  function ParseUnsignedHalves(body: string): Option<int> {
    if EndsInHalf(body) then
      match ParseWhole(body[..|body| - 2])
      case Some(k) => Some(2 * k + 1)
      case None => None
    else
      match ParseWhole(body)
      case Some(k) => Some(2 * k)
      case None => None
  }

  function ParseWhole(d: string): Option<nat> {
    if |d| == 0 || !AllDigits(d) then None else Some(ParseNat(d))
  }

  /** The printed height loses nothing: it reads back as `3n` halves. */
  lemma OneAndHalfRoundTrip(n: int)
    ensures ParseHalves(OneAndHalf(n)) == Some(3 * n)
  {
    var m := 3 * n;
    var k := Abs(m) / 2;
    var body := if m % 2 == 0 then NatToString(k) else NatToString(k) + ".5";
    UnsignedHalvesOf(k, m % 2 == 1);
    assert ParseUnsignedHalves(body) == Some(Abs(m));
    if m < 0 {
      assert ("-" + body)[1..] == body;
      assert OneAndHalf(n) == "-" + body;
    } else {
      assert body[0] == NatToString(k)[0];
      assert OneAndHalf(n) == body;
    }
  }

  /** A printed count of halves without its sign reads back. */
  lemma UnsignedHalvesOf(k: nat, half: bool)
    ensures ParseUnsignedHalves(if half then NatToString(k) + ".5" else NatToString(k))
         == Some(if half then 2 * k + 1 else 2 * k)
  {
    var digits := NatToString(k);
    ParseNatToString(k);
    assert ParseWhole(digits) == Some(k);
    if half {
      assert (digits + ".5")[..|digits + ".5"| - 2] == digits;
    } else {
      assert !EndsInHalf(digits) by {
        if |digits| >= 2 {
          assert IsDigit(digits[|digits| - 2]);
        }
      }
    }
  }

  /**
   * `createSpacer`: an empty full-width box, `content * 1.5` rem high. For a
   * spacer block `content` is its unit count; for a code block that falls
   * through into this builder it is an object, and the product is `NaN`.
   */
  function BuildSpacer(body: Body): (r: Node)
    ensures r.tag == "div" && r.classes == ["ug-space"] && r.text == "" && r.children == []
    ensures r.style.Keys == {"height", "width"} && r.style["width"] == "100%" && |r.style["height"]| >= 4
    ensures body.Spacer? ==> ParseHalves(r.style["height"][..|r.style["height"]| - 3]) == Some(3 * body.units)
    ensures !body.Spacer? <==> r.style["height"] == "NaNrem"
  {
    var height := if body.Spacer? then OneAndHalf(body.units) else "NaN";
    RemSuffix(height);
    if body.Spacer? then
      OneAndHalfRoundTrip(body.units);
      Node("div", ["ug-space"], map[], map["height" := height + "rem", "width" := "100%"], "", [])
    else
      Node("div", ["ug-space"], map[], map["height" := height + "rem", "width" := "100%"], "", [])
  }

  lemma RemSuffix(h: string)
    requires |h| >= 1
    ensures (h + "rem")[..|h + "rem"| - 3] == h
    ensures (h + "rem")[0] == h[0]
  {
  }

  // ------------------------------------------------------------------- lists

  function ListItem(text: string): Node {
    Node("li", ["ug-list-group-item"], map[], map[], "", [TextNode(text)])
  }

  function ListItems(items: seq<string>): (r: seq<Node>)
    ensures |r| == |items|
    ensures forall i :: 0 <= i < |items| ==> r[i] == ListItem(items[i])
    decreases |items|
  {
    if |items| == 0 then [] else [ListItem(items[0])] + ListItems(items[1..])
  }

  /**
   * `createBulletList` ("ul", "ug-bullet-list") and `createNumberedList`
   * ("ol", "ug-numbered-list"): one list item per input string, in order.
   */
  function BuildList(tag: string, cls: string, items: seq<string>): (r: Node)
    ensures r.tag == tag && r.classes == [cls] && |r.children| == |items|
    ensures ReadItems(r.children) == items
  {
    ListRoundTrip(items);
    Node(tag, [cls], map[], map[], "", ListItems(items))
  }

  function ReadItem(li: Node): string {
    if |li.children| == 0 then "" else li.children[0].text
  }

  function ReadItems(ns: seq<Node>): (r: seq<string>)
    ensures |r| == |ns|
    ensures forall i :: 0 <= i < |ns| ==> r[i] == ReadItem(ns[i])
    decreases |ns|
  {
    if |ns| == 0 then [] else [ReadItem(ns[0])] + ReadItems(ns[1..])
  }

  lemma ListRoundTrip(items: seq<string>)
    ensures ReadItems(ListItems(items)) == items
  {
  }

  // ------------------------------------------------------------------- steps

  /** The `i`-th step (0-based): its number, its text and, when present, its description. */
  function StepItem(i: nat, s: Step): Node {
    var number := TextElement("span", ["ug-steps-indicator"], NatToString(i + 1));
    var text := TextElement("div", ["ug-steps-content-text"], s.text);
    var more := if s.description != "" then [TextElement("div", ["ug-steps-content-description"], s.description)] else [];
    var content := Element("div", ["ug-steps-content"], [text] + more);
    var classes := if s.description != "" then ["ug-steps-item", "ug-steps-item-desction"] else ["ug-steps-item"];
    Element("li", classes, [number, content])
  }

  function StepItems(steps: seq<Step>, start: nat): (r: seq<Node>)
    ensures |r| == |steps|
    ensures forall i :: 0 <= i < |steps| ==> r[i] == StepItem(start + i, steps[i])
    decreases |steps|
  {
    if |steps| == 0 then [] else [StepItem(start, steps[0])] + StepItems(steps[1..], start + 1)
  }

  /**
   * `createSteps`: an ordered list of steps, numbered from 1. A non-empty
   * orientation becomes the token "ug-steps-<orientation>", which
   * `classList.add` refuses when it holds white space.
   */
  function BuildSteps(orientation: string, steps: seq<Step>): (r: Option<Node>)
    ensures r.Some? <==> NoAsciiSpace(orientation)
    ensures r.Some? ==> r.value.tag == "ol" && |r.value.classes| >= 1 && r.value.classes[0] == "ug-steps"
    ensures r.Some? ==> ("ug-steps-" + orientation in r.value.classes <==> orientation != "")
    ensures r.Some? ==> r.value.classes == ["ug-steps"] + (if orientation != "" then ["ug-steps-" + orientation] else [])
    ensures r.Some? ==> ReadSteps(r.value.children) == steps
    ensures r.Some? ==> forall i :: 0 <= i < |steps| ==> StepNumber(r.value.children[i]) == Some(i + 1)
  {
    NoAsciiSpaceConcat("ug-steps-", orientation);
    var classes := if orientation != "" then TryAddClass(["ug-steps"], "ug-steps-" + orientation) else Some(["ug-steps"]);
    if classes.None? then None
    else
      var items := StepItems(steps, 0);
      StepsRoundTrip(steps);
      assert "ug-steps-" + orientation != "ug-steps";
      Some(Element("ol", classes.value, items))
  }

  function ReadStep(li: Node): Step {
    if |li.children| < 2 || |li.children[1].children| == 0 then Step("", "")
    else
      var content := li.children[1].children;
      Step(content[0].text, if |content| >= 2 then content[1].text else "")
  }

  function ReadSteps(ns: seq<Node>): (r: seq<Step>)
    ensures |r| == |ns|
    ensures forall i :: 0 <= i < |ns| ==> r[i] == ReadStep(ns[i])
    decreases |ns|
  {
    if |ns| == 0 then [] else [ReadStep(ns[0])] + ReadSteps(ns[1..])
  }

  /** The number a step item shows, read back; `None` when it is not a number. */
  function StepNumber(li: Node): Option<nat> {
    if |li.children| == 0 || !AllDigits(li.children[0].text) then None
    else Some(ParseNat(li.children[0].text))
  }

  lemma StepsRoundTrip(steps: seq<Step>)
    ensures ReadSteps(StepItems(steps, 0)) == steps
    ensures forall i :: 0 <= i < |steps| ==> StepNumber(StepItems(steps, 0)[i]) == Some(i + 1)
  {
    var items := StepItems(steps, 0);
    var back := ReadSteps(items);
    forall i | 0 <= i < |steps| ensures back[i] == steps[i] && StepNumber(items[i]) == Some(i + 1) {
      StepItemReadBack(i, steps[i]);
    }
  }

  lemma StepItemReadBack(i: nat, s: Step)
    ensures ReadStep(StepItem(i, s)) == s
    ensures StepNumber(StepItem(i, s)) == Some(i + 1)
  {
    ParseNatToString(i + 1);
  }

  // -------------------------------------------------------------- code block

  /**
   * `createCodeBlock`: a `pre` holding one `code` element with the source
   * text and a "language-<language>" class, "none" when no language is
   * given. A language holding white space makes `classList.add` throw.
   */
  function BuildCode(code: string, language: string): (r: Option<Node>)
    ensures r.Some? <==> NoAsciiSpace(language)
    ensures r.Some? ==> r.value.tag == "pre" && r.value.classes == ["ug-pre-code-block", "line-numbers"]
    ensures r.Some? ==> |r.value.children| == 1 && r.value.children[0].tag == "code"
    ensures r.Some? ==> r.value.children[0].text == code
    ensures r.Some? ==> r.value.children[0].classes
                        == ["ug-code-block", "language-" + (if language != "" then language else "none")]
  {
    var lang := if language != "" then language else "none";
    NoAsciiSpaceConcat("language-", lang);
    assert NoAsciiSpace("none");
    var classes := TryAddClass(["ug-code-block"], "language-" + lang);
    if classes.None? then None
    else
      assert "language-" + lang != "ug-code-block" by {
        assert ("language-" + lang)[0] == 'l';
      }
      Some(Element("pre", ["ug-pre-code-block", "line-numbers"], [TextElement("code", classes.value, code)]))
  }

  // ------------------------------------------------------------------ tables

  /** The classes that tell the two table kinds apart. */
  datatype TableStyle = TableStyle(
    wrapper: string, table: seq<string>, head: string, headerCell: string, row: string, cell: string)

  /** `createGeneralTable`. */
  const GeneralStyle := TableStyle(
    "ug-table-wrapper", ["ug-table-general"], "ug-table-head", "ug-table-header-cell", "ug-table-row", "ug-table-cell")

  /** `createParameterTable`. */
  const ParameterStyle := TableStyle(
    "ug-param-table-wrapper", ["ug-table-parameter", "table", "table-bordered", "table-hover"],
    "ug-param-table-head", "ug-param-header-cell", "ug-param-table-row", "ug-param-table-cell")

  function HeaderCell(style: TableStyle, text: string): Node {
    Node("th", [style.headerCell], map["scope" := "col"], map[], text, [])
  }

  function HeaderCells(style: TableStyle, texts: seq<string>): (r: seq<Node>)
    ensures |r| == |texts|
    ensures forall i :: 0 <= i < |texts| ==> r[i] == HeaderCell(style, texts[i])
    decreases |texts|
  {
    if |texts| == 0 then [] else [HeaderCell(style, texts[0])] + HeaderCells(style, texts[1..])
  }

  function BodyCells(style: TableStyle, texts: seq<string>): (r: seq<Node>)
    ensures |r| == |texts|
    ensures forall i :: 0 <= i < |texts| ==> r[i] == TextElement("td", [style.cell], texts[i])
    decreases |texts|
  {
    if |texts| == 0 then [] else [TextElement("td", [style.cell], texts[0])] + BodyCells(style, texts[1..])
  }

  function BodyRows(style: TableStyle, rows: seq<TableRow>): (r: seq<Node>)
    ensures |r| == |rows|
    ensures forall i :: 0 <= i < |rows| ==> r[i] == Element("tr", [style.row], BodyCells(style, rows[i].cells))
    decreases |rows|
  {
    if |rows| == 0 then []
    else [Element("tr", [style.row], BodyCells(style, rows[0].cells))] + BodyRows(style, rows[1..])
  }

  /**
   * `createGeneralTable` and `createParameterTable`: a wrapper around a
   * table with one header row of column headers and one body row per input
   * row. Rows are not checked against the header's length.
   */
  function BuildTable(style: TableStyle, data: TableData): (r: Node)
    ensures r.tag == "div" && r.classes == [style.wrapper] && |r.children| == 1
    ensures TableHeaderCells(r) == HeaderCells(style, data.header)
    ensures |TableBodyRows(r)| == |data.rows|
    ensures forall i :: 0 <= i < |data.rows| ==> |TableBodyRows(r)[i].children| == |data.rows[i].cells|
    ensures ReadTable(r) == data
  {
    var thead := Element("thead", [style.head], [Element("tr", [], HeaderCells(style, data.header))]);
    var tbody := Element("tbody", ["ug-table-body"], BodyRows(style, data.rows));
    var r := Element("div", [style.wrapper], [Element("table", style.table, [thead, tbody])]);
    TableRoundTrip(style, data, r);
    r
  }

  /** The header cells of a built table (wrapper, table, thead, header row). */
  function TableHeaderCells(n: Node): seq<Node> {
    if |n.children| == 0 || |n.children[0].children| == 0 || |n.children[0].children[0].children| == 0 then []
    else n.children[0].children[0].children[0].children
  }

  /** The body rows of a built table (wrapper, table, tbody). */
  function TableBodyRows(n: Node): seq<Node> {
    if |n.children| == 0 || |n.children[0].children| < 2 then []
    else n.children[0].children[1].children
  }

  function Texts(ns: seq<Node>): (r: seq<string>)
    ensures |r| == |ns|
    ensures forall i :: 0 <= i < |ns| ==> r[i] == ns[i].text
    decreases |ns|
  {
    if |ns| == 0 then [] else [ns[0].text] + Texts(ns[1..])
  }

  function ReadRows(ns: seq<Node>): (r: seq<TableRow>)
    ensures |r| == |ns|
    ensures forall i :: 0 <= i < |ns| ==> r[i] == TableRow(Texts(ns[i].children))
    decreases |ns|
  {
    if |ns| == 0 then [] else [TableRow(Texts(ns[0].children))] + ReadRows(ns[1..])
  }

  /** The header texts and cell texts of a built table, read back. */
  function ReadTable(n: Node): TableData {
    TableData(Texts(TableHeaderCells(n)), ReadRows(TableBodyRows(n)))
  }

  lemma TableRoundTrip(style: TableStyle, data: TableData, r: Node)
    requires r == Element("div", [style.wrapper], [Element("table", style.table, [
                   Element("thead", [style.head], [Element("tr", [], HeaderCells(style, data.header))]),
                   Element("tbody", ["ug-table-body"], BodyRows(style, data.rows))])])
    ensures ReadTable(r) == data
  {
    var rows := TableBodyRows(r);
    assert Texts(TableHeaderCells(r)) == data.header;
    forall i | 0 <= i < |data.rows| ensures ReadRows(rows)[i] == data.rows[i] {
      assert Texts(rows[i].children) == data.rows[i].cells;
    }
  }

  // -------------------------------------------------------------------- link

  function LinkIcon(): Node {
    Element("i", ["bi", "bi-box-arrow-up-right", "ug-element-ms-1"], [])
  }

  /**
   * `createLink`: the address falls back to "#", the text to the address,
   * the target is set only when given, and a new-tab target adds an icon.
   */
  function BuildLink(url: string, target: string, linkText: string): (r: Node)
    ensures r.tag == "a" && r.classes == ["ug-link"]
    ensures "href" in r.attrs && r.attrs["href"] == (if url != "" then url else "#")
    ensures "target" in r.attrs <==> target != ""
    ensures target != "" ==> r.attrs["target"] == target
    ensures r.attrs.Keys <= {"href", "target"}
    ensures r.text == (if linkText != "" then linkText else url)
    ensures r.children == (if target == "_blank" then [LinkIcon()] else [])
  {
    var href := map["href" := if url != "" then url else "#"];
    var attrs := if target != "" then href["target" := target] else href;
    Node("a", ["ug-link"], attrs, map[], if linkText != "" then linkText else url,
      if target == "_blank" then [LinkIcon()] else [])
  }

  // ------------------------------------------------------------------- image

  /**
   * `createImage`: a full-width image, followed by a caption box only when
   * a caption is given.
   */
  function BuildImage(url: string, altText: string, caption: string): (r: seq<Node>)
    ensures |r| == (if caption != "" then 2 else 1)
    ensures r[0].tag == "img" && r[0].classes == ["ug-image"] && r[0].children == []
    ensures r[0].attrs == map["src" := url, "alt" := altText] && r[0].style == map["width" := "100%"]
    ensures |r| == 2 ==> r[1].tag == "div" && r[1].classes == ["ug-image-caption"] && r[1].text == caption
  {
    var img := Node("img", ["ug-image"], map["src" := url, "alt" := altText], map["width" := "100%"], "", []);
    if caption != "" then [img, TextElement("div", ["ug-image-caption"], caption)] else [img]
  }

  // ------------------------------------------------------------------- video

  const VideoLinkText := "Lihat Video"

  function VideoLink(url: string): Node {
    var link := Node("a", ["ug-element-text-decoration-none"], map["href" := url, "target" := "_blank"], map[],
      VideoLinkText, [Element("i", ["bi", "bi-box-arrow-up-right"], [])]);
    Element("div", ["ug-video-url-link"], [link])
  }

  /** The embed wrapper around the player markup, when there is markup. */
  function EmbedPart(embedCode: string): (r: seq<Node>)
    ensures |r| == (if embedCode != "" then 1 else 0)
    ensures embedCode != "" ==> r[0].classes == ["ug-video-embed-wrapper"]
  {
    if embedCode != "" then [Element("div", ["ug-video-embed-wrapper"], [Element("div", [], [MarkupNode(embedCode)])])] else []
  }

  /** The new-tab link, when there is an address. */
  function LinkPart(videoUrl: string): (r: seq<Node>)
    ensures |r| == (if videoUrl != "" then 1 else 0)
    ensures videoUrl != "" ==> r[0].classes == ["ug-video-url-link"]
  {
    if videoUrl != "" then [VideoLink(videoUrl)] else []
  }

  /** The description box, when there is a description. */
  function DescriptionPart(description: string): (r: seq<Node>)
    ensures |r| == (if description != "" then 1 else 0)
    ensures description != "" ==> r[0].classes == ["ug-video-description"] && r[0].text == description
  {
    if description != "" then [TextElement("div", ["ug-video-description"], description)] else []
  }

  /**
   * `createVideo`: a container holding, in this order and each only when
   * given, the embedded player markup, a new-tab link to the video and a
   * description.
   */
  function BuildVideo(embedCode: string, videoUrl: string, description: string): (r: Node)
    ensures r.tag == "div" && r.classes == ["ug-video-container"]
    ensures r.children == EmbedPart(embedCode) + LinkPart(videoUrl) + DescriptionPart(description)
    ensures |r.children| == (if embedCode != "" then 1 else 0) + (if videoUrl != "" then 1 else 0)
                            + (if description != "" then 1 else 0)
    ensures ReadVideo(r) == (embedCode, videoUrl, description)
  {
    var embed := EmbedPart(embedCode);
    var link := LinkPart(videoUrl);
    var desc := DescriptionPart(description);
    var r := Element("div", ["ug-video-container"], embed + link + desc);
    VideoRoundTrip(embedCode, videoUrl, description, embed, link, desc);
    r
  }

  /** The part of a video container tagged with `cls`, or none. */
  function PartWith(ns: seq<Node>, cls: string): Option<Node>
    decreases |ns|
  {
    if |ns| == 0 then None
    else if ns[0].classes == [cls] then Some(ns[0])
    else PartWith(ns[1..], cls)
  }

  /** The embed markup, address and description of a built video container, read back. */
  function ReadVideo(n: Node): (string, string, string) {
    (ReadEmbed(n.children), ReadVideoUrl(n.children), ReadDescription(n.children))
  }

  function ReadEmbed(ns: seq<Node>): string {
    var embed := PartWith(ns, "ug-video-embed-wrapper");
    if embed.Some? && |embed.value.children| > 0 && |embed.value.children[0].children| > 0
    then embed.value.children[0].children[0].text else ""
  }

  function ReadVideoUrl(ns: seq<Node>): string {
    var link := PartWith(ns, "ug-video-url-link");
    if link.Some? && |link.value.children| > 0 && "href" in link.value.children[0].attrs
    then link.value.children[0].attrs["href"] else ""
  }

  function ReadDescription(ns: seq<Node>): string {
    var desc := PartWith(ns, "ug-video-description");
    if desc.Some? then desc.value.text else ""
  }

  lemma VideoRoundTrip(embedCode: string, videoUrl: string, description: string,
                       embed: seq<Node>, link: seq<Node>, desc: seq<Node>)
    requires embed == if embedCode != "" then [Element("div", ["ug-video-embed-wrapper"], [Element("div", [], [MarkupNode(embedCode)])])] else []
    requires link == if videoUrl != "" then [VideoLink(videoUrl)] else []
    requires desc == if description != "" then [TextElement("div", ["ug-video-description"], description)] else []
    ensures ReadVideo(Element("div", ["ug-video-container"], embed + link + desc)) == (embedCode, videoUrl, description)
  {
    var ns := embed + link + desc;
    assert ReadEmbed(ns) == embedCode by {
      assert ns == embed + (link + desc);
      EmbedReadBack(embedCode, embed, link + desc);
    }
    assert ReadVideoUrl(ns) == videoUrl by {
      assert ns == embed + (link + desc);
      PartWithConcat(embed, link + desc, "ug-video-url-link");
      UrlReadBack(videoUrl, link, desc);
    }
    assert ReadDescription(ns) == description by {
      DescriptionReadBack(description, embed + link, desc);
    }
  }

  lemma EmbedReadBack(embedCode: string, embed: seq<Node>, rest: seq<Node>)
    requires embed == if embedCode != "" then [Element("div", ["ug-video-embed-wrapper"], [Element("div", [], [MarkupNode(embedCode)])])] else []
    requires forall k :: 0 <= k < |rest| ==> rest[k].classes != ["ug-video-embed-wrapper"]
    ensures ReadEmbed(embed + rest) == embedCode
  {
    if embedCode == "" {
      assert embed + rest == rest;
      PartWithAbsent(rest, "ug-video-embed-wrapper");
    } else {
      assert (embed + rest)[0] == embed[0];
    }
  }

  lemma UrlReadBack(videoUrl: string, link: seq<Node>, rest: seq<Node>)
    requires link == if videoUrl != "" then [VideoLink(videoUrl)] else []
    requires forall k :: 0 <= k < |rest| ==> rest[k].classes != ["ug-video-url-link"]
    ensures ReadVideoUrl(link + rest) == videoUrl
  {
    if videoUrl == "" {
      assert link + rest == rest;
      PartWithAbsent(rest, "ug-video-url-link");
    } else {
      assert (link + rest)[0] == link[0];
    }
  }

  lemma DescriptionReadBack(description: string, front: seq<Node>, desc: seq<Node>)
    requires desc == if description != "" then [TextElement("div", ["ug-video-description"], description)] else []
    requires forall k :: 0 <= k < |front| ==> front[k].classes != ["ug-video-description"]
    ensures ReadDescription(front + desc) == description
  {
    PartWithConcat(front, desc, "ug-video-description");
    if description == "" {
      PartWithAbsent(desc, "ug-video-description");
    }
  }

  /** No part carries the class. */
  lemma PartWithAbsent(ns: seq<Node>, cls: string)
    requires forall k :: 0 <= k < |ns| ==> ns[k].classes != [cls]
    ensures PartWith(ns, cls) == None
  {
    PartWithConcat(ns, [], cls);
    assert ns + [] == ns;
  }

  lemma {:induction false} PartWithConcat(a: seq<Node>, b: seq<Node>, cls: string)
    requires forall k :: 0 <= k < |a| ==> a[k].classes != [cls]
    ensures PartWith(a + b, cls) == PartWith(b, cls)
    decreases |a|
  {
    if |a| > 0 {
      assert (a + b)[0] == a[0];
      assert (a + b)[1..] == a[1..] + b;
      PartWithConcat(a[1..], b, cls);
    } else {
      assert a + b == b;
    }
  }
}
