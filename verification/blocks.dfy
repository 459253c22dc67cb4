/**
 * The guide document's input: an ordered list of typed content blocks. Each
 * payload shape the renderer reads is one constructor of `Body`; the block's
 * JavaScript `type` string is recovered by `TypeOf`. A block also carries the
 * `sectionId` and `level` that the section pass writes onto it.
 *
 * Optional string fields the renderer only tests for truthiness are plain
 * strings, where "" stands for an absent or empty value (both are falsy).
 */
module Blocks {

  /** The four alert kinds, each its own block `type`. */
  datatype AlertType = Note | Info | Warning | Tips

  /** A breakpoint width as JavaScript sees it: `null`, a missing field, or a number. */
  datatype Width = Null | Undefined | Val(n: int)

  datatype Step = Step(text: string, description: string)

  datatype TableRow = TableRow(cells: seq<string>)

  datatype TableData = TableData(header: seq<string>, rows: seq<TableRow>)

  /** Every `type` string the dispatcher has a case for. */
  const KnownTags: set<string> := {
    "video", "rich-text", "note", "info", "warning", "tips", "grid-row",
    "paragraph", "heading", "subheading", "code-block", "spacer",
    "bullet-list", "numbered-list", "steps", "general-table",
    "parameter-table", "image", "link"
  }

  /** A `type` string the dispatcher has no case for. */
  type UnknownTag = t: string | t !in KnownTags witness "foo"

  /** One grid column: six breakpoint widths, an inline style map, nested blocks. */
  datatype Column = Column(
    xs: Width, sm: Width, md: Width, lg: Width, xl: Width, xxl: Width,
    style: map<string, string>,
    children: seq<Block>)

  datatype Body =
    | Heading(text: string, margin: bool)
    | Subheading(text: string, margin: bool)
    | Paragraph(text: string, align: string, indent: bool, margin: bool)
    | RichText(markup: string)
    | Alert(alertType: AlertType, message: string)
    | Spacer(units: int)
    | BulletList(items: seq<string>)
    | NumberedList(items: seq<string>)
    | Steps(orientation: string, steps: seq<Step>)
    | CodeBlock(code: string, language: string)
    | GeneralTable(table: TableData)
    | ParameterTable(table: TableData)
    | Image(url: string, altText: string, caption: string)
    | Link(url: string, target: string, linkText: string)
    | Video(embedCode: string, videoUrl: string, description: string)
    | GridRow(align: string, columns: seq<Column>)
    | Unknown(tag: UnknownTag)

  datatype Block = Block(body: Body, sectionId: string, level: int)

  function AlertTag(a: AlertType): string {
    match a
    case Note => "note"
    case Info => "info"
    case Warning => "warning"
    case Tips => "tips"
  }

  /** The block's `type` field. */
  function TypeOf(body: Body): (t: string)
    ensures t in KnownTags <==> !body.Unknown?
  {
    match body
    case Heading(_, _) => "heading"
    case Subheading(_, _) => "subheading"
    case Paragraph(_, _, _, _) => "paragraph"
    case RichText(_) => "rich-text"
    case Alert(a, _) => AlertTag(a)
    case Spacer(_) => "spacer"
    case BulletList(_) => "bullet-list"
    case NumberedList(_) => "numbered-list"
    case Steps(_, _) => "steps"
    case CodeBlock(_, _) => "code-block"
    case GeneralTable(_) => "general-table"
    case ParameterTable(_) => "parameter-table"
    case Image(_, _, _) => "image"
    case Link(_, _, _) => "link"
    case Video(_, _, _) => "video"
    case GridRow(_, _) => "grid-row"
    case Unknown(tag) => tag
  }
}
