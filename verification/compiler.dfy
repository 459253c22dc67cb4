/**
 * The dispatcher (`createContentElement`) and the grid builders
 * (`createGridRow`, `#createGridColumn`) that feed a nested block list back
 * into it. Compiling a block list yields the nodes appended to the chapter,
 * in order, and whether the loop ran to the end: a builder that throws
 * appends nothing, and the exception ends the whole `forEach`.
 *
 * `#createGridColumn` calls the dispatcher without its class name. No such
 * global exists, so as written the call throws a `ReferenceError`; `Mode`
 * selects between that behaviour and the intended recursive call.
 */
module Compiler {
  import opened Blocks
  import opened Dom
  import opened GridLayout
  import opened Builders

  /** One builder call made by the dispatcher's `switch`. */
  datatype Action =
    | MakeVideo | MakeRichText | MakeAlert | MakeGridRow | MakeParagraph | MakeHeading
    | MakeSubheading | MakeCodeBlock | MakeSpacer | MakeBulletList | MakeNumberedList
    | MakeSteps | MakeGeneralTable | MakeParameterTable | MakeImage | MakeLink

  /**
   * The builders a `type` string runs, in order: the case it enters and,
   * for "code-block", the spacer case it falls through to.
   */
  function Actions(tag: string): (r: seq<Action>)
    ensures r == [] <==> tag !in KnownTags
    ensures |r| == 2 <==> tag == "code-block"
    ensures |r| <= 2
  {
    match tag
    case "video" => [MakeVideo]
    case "rich-text" => [MakeRichText]
    case "note" => [MakeAlert]
    case "info" => [MakeAlert]
    case "warning" => [MakeAlert]
    case "tips" => [MakeAlert]
    case "grid-row" => [MakeGridRow]
    case "paragraph" => [MakeParagraph]
    case "heading" => [MakeHeading]
    case "subheading" => [MakeSubheading]
    case "code-block" => [MakeCodeBlock, MakeSpacer]
    case "spacer" => [MakeSpacer]
    case "bullet-list" => [MakeBulletList]
    case "numbered-list" => [MakeNumberedList]
    case "steps" => [MakeSteps]
    case "general-table" => [MakeGeneralTable]
    case "parameter-table" => [MakeParameterTable]
    case "image" => [MakeImage]
    case "link" => [MakeLink]
    case _ => []
  }

  /**
   * The payload a builder reads. The spacer builder reads `content` whatever
   * it holds; every other builder needs its own shape.
   */
  predicate Handles(a: Action, body: Body) {
    match a
    case MakeVideo => body.Video?
    case MakeRichText => body.RichText?
    case MakeAlert => body.Alert?
    case MakeGridRow => body.GridRow?
    case MakeParagraph => body.Paragraph?
    case MakeHeading => body.Heading?
    case MakeSubheading => body.Subheading?
    case MakeCodeBlock => body.CodeBlock?
    case MakeSpacer => true
    case MakeBulletList => body.BulletList?
    case MakeNumberedList => body.NumberedList?
    case MakeSteps => body.Steps?
    case MakeGeneralTable => body.GeneralTable?
    case MakeParameterTable => body.ParameterTable?
    case MakeImage => body.Image?
    case MakeLink => body.Link?
  }

  /** The builder named after a block's shape (the code builder for a code block). */
  function OwnBuilder(body: Body): (a: Action)
    requires !body.Unknown?
    ensures Handles(a, body)
    ensures a == MakeSpacer <==> body.Spacer?
  {
    match body
    case Heading(_, _) => MakeHeading
    case Subheading(_, _) => MakeSubheading
    case Paragraph(_, _, _, _) => MakeParagraph
    case RichText(_) => MakeRichText
    case Alert(_, _) => MakeAlert
    case Spacer(_) => MakeSpacer
    case BulletList(_) => MakeBulletList
    case NumberedList(_) => MakeNumberedList
    case Steps(_, _) => MakeSteps
    case CodeBlock(_, _) => MakeCodeBlock
    case GeneralTable(_) => MakeGeneralTable
    case ParameterTable(_) => MakeParameterTable
    case Image(_, _, _) => MakeImage
    case Link(_, _, _) => MakeLink
    case Video(_, _, _) => MakeVideo
    case GridRow(_, _) => MakeGridRow
  }

  /**
   * Dispatching on the `type` string runs the builder made for the block's
   * shape, nothing for an unknown type, and for a code block the code
   * builder followed by the spacer builder.
   */
  lemma DispatchByShape(body: Body)
    ensures Actions(TypeOf(body)) ==
              if body.Unknown? then []
              else if body.CodeBlock? then [MakeCodeBlock, MakeSpacer]
              else [OwnBuilder(body)]
    ensures forall k :: 0 <= k < |Actions(TypeOf(body))| ==> Handles(Actions(TypeOf(body))[k], body)
  {
    match body
    case Alert(a, _) =>
      assert AlertTag(a) in {"note", "info", "warning", "tips"};
    case _ =>
  }

  /** Which behaviour `#createGridColumn`'s unqualified dispatcher call has. */
  datatype Mode = AsWritten | Intended

  /** The nodes appended to one container, and whether the loop ran to its end. */
  datatype Outcome = Outcome(nodes: seq<Node>, completed: bool)

  function Done(ns: seq<Node>): Outcome {
    Outcome(ns, true)
  }

  /** Nothing appended, and the exception propagates. */
  const Thrown := Outcome([], false)

  /** A builder that throws before appending its one node. */
  function Attempt(n: Option<Node>): (r: Outcome)
    ensures r.completed <==> n.Some?
    ensures r.completed ==> r.nodes == [n.value]
    ensures !r.completed ==> r.nodes == []
  {
    if n.Some? then Done([n.value]) else Thrown
  }

  /** One step after another: the second runs only when the first completed. */
  function AndThen(first: Outcome, second: Outcome): (r: Outcome)
    ensures r.completed <==> first.completed && second.completed
    ensures first.completed ==> r.nodes == first.nodes + second.nodes
    ensures !first.completed ==> r == first
  {
    if first.completed then Outcome(first.nodes + second.nodes, second.completed) else first
  }

  // The compiler proper. Each function decreases on the part of the block
  // tree it walks; the second component orders the calls made on one block.

  /** `createContentElement(bs, target)`: the nodes appended to `target`. */
  function CompileList(bs: seq<Block>, mode: Mode): (r: Outcome)
    ensures r.completed <==> forall i :: 0 <= i < |bs| ==> CompileBlock(bs[i], mode).completed
    decreases bs, 0
  {
    if |bs| == 0 then Done([])
    else
      var first := CompileBlock(bs[0], mode);
      if first.completed then AndThen(first, CompileList(bs[1..], mode)) else first
  }

  /** One iteration of the dispatcher's `forEach`. */
  function CompileBlock(b: Block, mode: Mode): (r: Outcome)
    ensures b.body.Unknown? ==> r == Done([])
    decreases b, 3
  {
    var actions := Actions(TypeOf(b.body));
    DispatchByShape(b.body);
    RunActions(actions, b, mode)
  }

  function RunActions(actions: seq<Action>, b: Block, mode: Mode): Outcome
    requires forall k :: 0 <= k < |actions| ==> Handles(actions[k], b.body)
    decreases b, 2, |actions|
  {
    if |actions| == 0 then Done([])
    else
      var first := Perform(actions[0], b, mode);
      if first.completed then AndThen(first, RunActions(actions[1..], b, mode)) else first
  }

  /** One builder call on one block. */
  function Perform(a: Action, b: Block, mode: Mode): (r: Outcome)
    requires Handles(a, b.body)
    ensures !r.completed ==> r.nodes == []
    ensures r.completed ==> 1 <= |r.nodes| <= 2
    ensures r.completed && a != MakeImage ==> |r.nodes| == 1
    decreases b, 1, 0
  {
    var body := b.body;
    match a
    case MakeVideo => Done([BuildVideo(body.embedCode, body.videoUrl, body.description)])
    case MakeRichText => Done([BuildRichText(body.markup)])
    case MakeAlert => Done([BuildAlert(body.alertType, body.message)])
    case MakeGridRow => CompileGridRow(body.align, body.columns, mode)
    case MakeParagraph => Attempt(BuildParagraph(body.text, body.align, body.indent, body.margin))
    case MakeHeading => Done([BuildSection(H2, b.sectionId, b.level, body.text, body.margin)])
    case MakeSubheading => Done([BuildSection(H3, b.sectionId, b.level, body.text, body.margin)])
    case MakeCodeBlock => Attempt(BuildCode(body.code, body.language))
    case MakeSpacer => Done([BuildSpacer(body)])
    case MakeBulletList => Done([BuildList("ul", "ug-bullet-list", body.items)])
    case MakeNumberedList => Done([BuildList("ol", "ug-numbered-list", body.items)])
    case MakeSteps => Attempt(BuildSteps(body.orientation, body.steps))
    case MakeGeneralTable => Done([BuildTable(GeneralStyle, body.table)])
    case MakeParameterTable => Done([BuildTable(ParameterStyle, body.table)])
    case MakeImage => Done(BuildImage(body.url, body.altText, body.caption))
    case MakeLink => Done([BuildLink(body.url, body.target, body.linkText)])
  }

  /**
   * `createGridRow`: a container around a row preview that holds one
   * wrapper per column. The alignment token is added before any column is
   * built, and a column that throws loses the whole row.
   */
  function CompileGridRow(align: string, cols: seq<Column>, mode: Mode): (r: Outcome)
    ensures !r.completed ==> r == Thrown
    ensures r.completed ==> |r.nodes| == 1 && r.nodes[0].classes == ["ug-grid-container"] && |r.nodes[0].children| == 1
    ensures r.completed ==> |r.nodes[0].children[0].children| == |cols|
    ensures mode == AsWritten && |cols| > 0 ==> !r.completed
    decreases cols, 1
  {
    var preview := if align != "" then TryAddClass(["ug-grid-row-preview"], "ug-" + align) else Some(["ug-grid-row-preview"]);
    if preview.None? then Thrown
    else
      var columns := CompileColumns(cols, mode);
      if columns.completed then Done([Element("div", ["ug-grid-container"], [Element("div", preview.value, columns.nodes)])])
      else Thrown
  }

  function CompileColumns(cols: seq<Column>, mode: Mode): (r: Outcome)
    ensures r.completed ==> |r.nodes| == |cols|
    decreases cols, 0
  {
    if |cols| == 0 then Done([])
    else
      var first := CompileColumn(cols[0], mode);
      var rest := CompileColumns(cols[1..], mode);
      if first.completed then AndThen(first, rest) else first
  }

  /** The wrapper's class list: its own class, then the grid classes split on spaces. */
  function WrapperClasses(c: Column): Option<seq<string>> {
    TryAddClasses(["ug-grid-col-wrapper"], Split(GridClassString(c), ' '))
  }

  /**
   * `#createGridColumn`: a wrapper carrying the grid classes and the
   * column's inline style, around a content box holding the column's
   * compiled children.
   */
  function CompileColumn(c: Column, mode: Mode): (r: Outcome)
    ensures !r.completed ==> r == Thrown
    ensures r.completed ==> |r.nodes| == 1 && r.nodes[0].style == c.style && |r.nodes[0].children| == 1
    ensures r.completed ==> r.nodes[0].children[0].classes == ["ug-grid-col-content"]
    ensures mode == AsWritten ==> !r.completed
    decreases c, 0
  {
    var classes := WrapperClasses(c);
    if classes.None? then Thrown
    else if mode == AsWritten then Thrown
    else
      var inner := CompileList(c.children, mode);
      if inner.completed then
        Done([Node("div", classes.value, map[], c.style, "", [Element("div", ["ug-grid-col-content"], inner.nodes)])])
      else Thrown
  }
}
