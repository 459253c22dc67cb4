# Guide renderer: block-tree compiler

This project models the part of the user-guide renderer that turns a
chapter's list of content blocks into page elements. The code is the
`GenerateElement` class in `script/render-guide.js`.

A chapter is a list of blocks. Each block has a `type` string, such as
"heading", "paragraph", "code-block" or "grid-row", and a `content` payload.
A grid row holds columns, and each column holds a block list of its own.
Rendering is done in two passes:

- **Section pass** (`createSectionLevel`). Every block, at every depth, gets
  a dash-joined `sectionId` and a `level`. The level is 1 for a heading, 2
  for a subheading and 3 for anything else.
- **Dispatcher** (`createContentElement`). A `switch` on `type` calls one
  builder per block. The builder appends elements to the chapter container.
  A grid row's builder compiles each column's blocks into that column's
  content box.

The model is pure. Blocks are a sum type (`Blocks.Body`), and the `type`
string is derived from the variant by `Blocks.TypeOf`. An element is an
immutable `Dom.Node` with a tag, an ordered class list, attributes, inline
style, text and children. The section pass returns annotated copies of the
blocks instead of writing onto them. Compiling returns the appended nodes,
together with a flag that says whether the loop ran to the end
(`Compiler.Outcome`).

JavaScript behaviour that matters is written out:

- **`classList.add`** skips a token the list already holds. It throws on a
  token that is empty or contains white space; the model returns `None`
  there.
- **Exceptions.** A builder that throws appends nothing, and the exception
  ends the whole `forEach`.
- **Fall-through.** "code-block" has no `break`, so the spacer builder runs
  after the code builder. The spacer's `content * 1.5` is then `NaN`, so the
  string assigned to its height is "NaNrem".
- **Breakpoints.** A breakpoint width is `null`, `undefined` or a number, and
  only `null` is skipped by the `!== null` tests. An `undefined` width
  therefore prints as "undefined".
- **Grid prefix.** Inside a grid row the prefix handed to column j is the
  running string `id-1-2-…-j`, because line 88 extends one variable column
  after column. It is not `id-j`.

The source never shows the two passes being called together; the caller is
not part of this model. `Outline.AnnotateThenCompile` is the model's own
composition of the section pass over a chapter followed by the dispatcher.
The theorems about the whole chapter are stated for it.

## Model

| member | source | states |
|---|---|---|
| SectionIds.SectionIdAt | script/render-guide.js:79-82 | With no prefix, the id of the block at 0-based position i is the decimal of i+1. Otherwise it is prefix + "-" + (i+1), with one leading dash of the prefix dropped. |
| SectionIds.LevelOf | script/render-guide.js:84 | The level is 1 exactly for "heading", 2 exactly for "subheading" and 3 exactly for every other type. |
| SectionIds.Generate | script/render-guide.js:78-91 | A block gets its position's id and its type's level. A payload that is not a grid row is unchanged. A grid row keeps its alignment and its column count. |
| SectionIds.AnnotateColumns | script/render-guide.js:86-90 | The column loop is modelled as written: one prefix variable, extended by "-" + (j+1) before column j is annotated. Its contract gives the closed form: column k is annotated under the row id followed by "-1-…-(k+1)", and nothing else in the column changes. |
| SectionIds.Annotate | script/render-guide.js:76-96 | Every block of the list gets the id of its position and the level of its type. The list length is unchanged. Non-grid payloads are unchanged. |
| SectionIds.GenerateColumnPrefixes | script/render-guide.js:86-90 | For a grid row, column k's children are annotated under the block's id followed by "-1-2-…-(k+1)". |
| SectionIds.ColumnPrefixIsCumulative | script/render-guide.js:86-90 | In an annotated list, column k of a grid row holds its children annotated under the cumulative prefix. For k ≥ 1 that prefix is not id + "-" + (k+1). |
| SectionIds.GenerateKeepsContent | script/render-guide.js:83-84 | Apart from ids and levels, at every depth, annotating a block changes nothing. |
| SectionIds.AnnotateKeepsContent | script/render-guide.js:93-95 | Apart from ids and levels, the annotated list equals its input. |
| SectionIds.GenerateIgnoresAnnotations | script/render-guide.js:78-91 | Two blocks that differ only in their old ids and levels are annotated identically. |
| SectionIds.AnnotateIgnoresAnnotations | script/render-guide.js:93-95 | Two lists that differ only in their old ids and levels are annotated identically. |
| SectionIds.AnnotateIdempotent | script/render-guide.js:76-96 | Running the section pass a second time changes nothing. |
| SectionIds.SectionIdAtInjective | script/render-guide.js:79-82 | Siblings under one prefix never share an id. |
| SectionIds.InsertShiftsLaterIds | script/render-guide.js:93-95 | Every block is numbered whatever its type, unknown ones included. Inserting any block keeps the earlier siblings' ids, and gives every later sibling the id of the next position, which differs from the id it had without the insertion. |
| SectionPaths.CodeInjective | script/render-guide.js:86-90 | The numbers the pass writes for a position (including the cumulative column runs) determine the position. |
| SectionPaths.PathIdsUnique | script/render-guide.js:76-96 | Distinct valid positions get distinct ids. |
| SectionPaths.ListIdsAreCodes | script/render-guide.js:78-95 | Every block in an annotated list, nested ones included, carries the dash-joined code of its own position. |
| SectionPaths.SectionIdsUnique | script/render-guide.js:76-96 | After the pass over a chapter, the ids of all blocks at all depths are exactly the ids of their positions, and no two are equal. |
| Blocks.TypeOf | script/render-guide.js:19-71 | A block's `type` is one of the dispatcher's case strings exactly when the block is not of unknown type. |
| Compiler.Actions | script/render-guide.js:19-72 | A type string runs no builder exactly when it has no case. It runs two builders exactly when it is "code-block". It never runs more than two. |
| Compiler.OwnBuilder | script/render-guide.js:19-72 | Each known shape has a builder that reads that shape. That builder is the spacer builder only for a spacer. |
| Compiler.DispatchByShape | script/render-guide.js:17-74 | Dispatching on a block's type runs nothing for an unknown type, [code, spacer] for a code block and the block's own builder otherwise. Each builder run accepts the payload. |
| Compiler.CompileList | script/render-guide.js:17-74 | The loop over a block list runs to the end exactly when no block in it throws. |
| Compiler.CompileBlock | script/render-guide.js:19-72 | A block of unknown type appends nothing and does not throw. |
| Compiler.Perform | script/render-guide.js:20-69 | One builder run appends nothing when it throws. When it completes it appends exactly one node, or, for an image, one or two. |
| Compiler.CompileGridRow | script/render-guide.js:634-648 | A grid row that throws appends nothing. One that completes appends a single "ug-grid-container" holding one preview box with one wrapper per column. As written, a row with any column throws. |
| Compiler.CompileColumns | script/render-guide.js:642-645 | When the column loop completes, it yields one wrapper per column. |
| Compiler.CompileColumn | script/render-guide.js:609-627 | A column that throws yields nothing. One that completes yields one wrapper carrying the column's style and holding one "ug-grid-col-content" box. As written, every column throws. |
| CompilerFacts.GridRowContent | script/render-guide.js:634-648 | In a completed row the preview box has the classes "ug-grid-row-preview" and then "ug-" + align when an alignment is given (skipped by `classList.add` only for the alignment "grid-row-preview"). Its children are exactly the column loop's wrappers. |
| CompilerFacts.PreviewClasses | script/render-guide.js:638-641 | Adding "ug-" + align to the preview's list appends it, unless it is the preview class itself. |
| CompilerFacts.ColumnsContent | script/render-guide.js:642-645 | In a completed column loop, wrapper k is the wrapper column k builds, in column order, and every column completes. |
| CompilerFacts.ColumnContent | script/render-guide.js:609-627 | A completed column is a `div` whose classes are the wrapper class and the grid classes, and whose content box holds exactly the compiled children of the column. |
| CompilerFacts.ThrowStopsLoop | script/render-guide.js:18 | Once a prefix of the list throws, the blocks after it change nothing: the whole list's outcome is the prefix's. |
| CompilerFacts.ThrowKeepsEarlierNodes | script/render-guide.js:18 | When the blocks before x complete and x throws, the output is exactly what the earlier blocks appended, and the loop is stopped. |
| CompilerFacts.BlockThrowAppendsNothing | script/render-guide.js:19-72 | A block whose builder throws appends nothing. |
| CompilerFacts.CompileListConcat | script/render-guide.js:18 | Blocks compile in input order: the output of a concatenation is the first part's output followed by the second's, if the first completed. |
| CompilerFacts.UnknownIsSkipped | script/render-guide.js:70-71 | A block of unknown type appends nothing, and the loop continues. |
| CompilerFacts.UnknownChangesNothing | script/render-guide.js:17-74 | Removing a block of unknown type from anywhere in a list leaves the compiled output unchanged. |
| CompilerFacts.CodeBlockFallsThrough | script/render-guide.js:44-48 | A code block yields the `pre` node and then a spacer whose assigned height is "NaNrem", or throws when its language token is refused. |
| CompilerFacts.OneBuilderPerBlock | script/render-guide.js:19-72 | Every block other than a code block runs exactly its own builder, once. |
| CompilerFacts.GridClassesValid | script/render-guide.js:612-614 | Every grid class token is acceptable to `classList.add`. |
| CompilerFacts.WrapperClassesOf | script/render-guide.js:610-614 | A column wrapper's classes are "ug-grid-col-wrapper" followed by the grid classes, in order. Adding them never throws. |
| CompilerFacts.ListCompletes | script/render-guide.js:17-74 | With the intended recursive call, a list compiles to the end exactly when every computed class token in it, at every depth, is accepted. |
| CompilerFacts.BlockCompletes | script/render-guide.js:19-72 | One block compiles without throwing exactly when its own tokens and its nested blocks' tokens are accepted. |
| CompilerFacts.LeafCompletes | script/render-guide.js:281-602 | A builder without nested blocks completes exactly when its own computed tokens are accepted. |
| CompilerFacts.GridRowCompletes | script/render-guide.js:634-648 | A grid row completes exactly when its alignment has no white space and every column completes. |
| CompilerFacts.ColumnsCompletes | script/render-guide.js:642-645 | A row's columns complete exactly when each one does. |
| CompilerFacts.ColumnCompletes | script/render-guide.js:609-627 | With the intended call, a column completes exactly when its children do. |
| CompilerFacts.AsWrittenColumnThrows | script/render-guide.js:624 | As written, building any grid column throws. |
| CompilerFacts.AsWrittenGridRowThrows | script/render-guide.js:624 | As written, a grid row with at least one column throws, and so does every list that starts with it. |
| CompilerFacts.ReferenceErrorExample | script/render-guide.js:624 | A row with one empty column followed by a paragraph: as written nothing is emitted, and with the intended call both nodes are emitted. |
| CompilerFacts.AsWrittenAgreesWithoutColumns | script/render-guide.js:609-627 | When no grid row in a list has a column, the two readings of line 624 give the same output. |
| Alerts.AlertClass | script/render-guide.js:159-172 | The class is "light" exactly for a type with no case. Otherwise it is one of info, danger, success and secondary. |
| Alerts.CardIcon | script/render-guide.js:180-193 | The label is empty exactly for a type with no case. |
| Alerts.AlertLookups | script/render-guide.js:159-193 | Every alert block gets a real class (warning shown as "danger") and a label made of its glyph, a space and its word. |
| Alerts.AlertLookupsInjective | script/render-guide.js:159-193 | Distinct alert kinds get distinct classes and distinct labels. |
| Builders.BuildAlert | script/render-guide.js:281-292 | The alert box has classes "ug-alert-preview", "alert" and then the colour class of its alert type, which is never the fallback "light". It holds a `strong` label and then the text " " + message. |
| Builders.BuildSection | script/render-guide.js:298-337 | The node is a `section` with exactly the block's id and `data-level`. It holds one h2 or h3 with the text and a `data-section-title` equal to the text. The title's classes are exactly "ug-heading-h2" or "ug-heading-h3", followed by "with-margin" when margin is set. |
| Builders.BuildParagraph | script/render-guide.js:343-357 | The paragraph is built exactly when the alignment has no white space. Its classes are exactly "ug-paragraph", then "with-align-" + align when an alignment is given, then "with-indent" when indent is set, then "with-margin" when margin is set. They hold no duplicates. |
| Builders.BuildRichText | script/render-guide.js:362-367 | The markup is stored unchanged in a "ug-rich-text" div. |
| Builders.OneAndHalfRoundTrip | script/render-guide.js:377 | The printed value of `n * 1.5` parses back to 3n halves. |
| Builders.BuildSpacer | script/render-guide.js:373-381 | The string assigned to the spacer's width is "100%". For a spacer block's integer content the string assigned to its height reads back as 1.5 times the content in rem. That string is "NaNrem" exactly when the payload is not a spacer's (the code-block fall-through). |
| Builders.BuildList | script/render-guide.js:387-416 | The list has one item per entry, and the items read back to the entries in order. |
| Builders.ListRoundTrip | script/render-guide.js:390-396 | Reading the item texts back gives the input list. |
| Builders.BuildSteps | script/render-guide.js:421-454 | The steps list is built exactly when the orientation has no white space. Its classes are exactly "ug-steps", then "ug-steps-" + orientation when an orientation is given. Steps read back in order, and step i shows the number i+1. |
| Builders.StepsRoundTrip | script/render-guide.js:427-451 | Each step item reads back to its step, numbered from 1. |
| Builders.StepItemReadBack | script/render-guide.js:428-450 | One step item reads back to its text and description, and shows its number. |
| Builders.BuildCode | script/render-guide.js:459-470 | The code block is built exactly when the language has no white space. Its `code` element holds the code text, with class "language-" + language ("none" when absent). |
| Builders.BuildTable | script/render-guide.js:482-560 | The table has one header cell per header title. It has one row per data row, each with one cell per data cell. It reads back to the table data. |
| Builders.TableRoundTrip | script/render-guide.js:492-516 | A built table reads back to its header and rows. |
| Builders.BuildLink | script/render-guide.js:565-584 | The link's href is the url or "#". Its target is present exactly when given. Its text is the link text or else the url. It has an icon exactly for "_blank". |
| Builders.BuildImage | script/render-guide.js:589-602 | The image appends one `img` with its src and alt, plus a caption div exactly when there is a caption. |
| Builders.BuildVideo | script/render-guide.js:654-687 | The video box's children are exactly the embed part, then the link part, then the description part, each present only when its field is non-empty. It reads back to the embed code, url and description. |
| Builders.EmbedPart | script/render-guide.js:657-663 | An embed code gives one "ug-video-embed-wrapper" box; an empty one gives none. |
| Builders.LinkPart | script/render-guide.js:665-678 | A video address gives one "ug-video-url-link" box; an empty one gives none. |
| Builders.DescriptionPart | script/render-guide.js:680-684 | A description gives one "ug-video-description" box with that text; an empty one gives none. |
| Builders.VideoRoundTrip | script/render-guide.js:657-685 | Each optional part of a video box reads back to its field, or "" when it is absent. |
| GridLayout.WidthText | script/render-guide.js:140-146 | A width prints as a non-empty token starting with a digit, a sign, "n" or "u". |
| GridLayout.WidthTextInjective | script/render-guide.js:140-146 | Distinct widths print differently. |
| GridLayout.ClassForShape | script/render-guide.js:140-146 | A breakpoint class has no space and at least nine characters. Its ninth character (and tenth for xl/xxl) tells its breakpoint. |
| GridLayout.ClassForInjective | script/render-guide.js:140-146 | A breakpoint class determines both its breakpoint and its width. |
| GridLayout.PresentSpec | script/render-guide.js:140-146 | A breakpoint contributes exactly when its width is not `null`, each at most once. |
| GridLayout.UntrimmedIsJoin | script/render-guide.js:137-146 | The concatenated string is "ug-grid-row-item" and the class of each set breakpoint, in XS…XXL order, joined by single spaces. |
| GridLayout.GridClassString | script/render-guide.js:136-150 | The trimmed class string is the grid classes joined by single spaces, and splitting it on spaces gives back exactly those classes. |
| GridLayout.GridClassesDistinct | script/render-guide.js:611-614 | The wrapper class and the grid classes are pairwise distinct, so adding them drops nothing. |
| GridLayout.BreakpointLabel | script/render-guide.js:112-122 | The label is "(Default Penuh)" when no breakpoint is set. Otherwise it is the parts joined by ", " in parentheses. There is one part per grid class after the first. The label is "(Default Penuh)" exactly when every breakpoint is `null`. |
| GridLayout.LabelEntriesParts | script/render-guide.js:113-119 | The entries the label loop collects are one "name:width" part per set breakpoint, in XS…XXL order. |
| Dom.AddClass | script/render-guide.js:348-355 | After adding, the list holds the old tokens and the new one, and nothing else. The old list is kept as a prefix, at most one token is added, and a list without duplicates stays without duplicates. |
| Outline.SectionRead | script/render-guide.js:298-303 | A heading builder's node is one section, read back as the block's id, level and text. |
| Outline.ListSections | script/render-guide.js:17-74 | The `section` elements of a completed compilation are one per heading or subheading block, at any depth and in document order, each with that block's id, level and text. |
| Outline.BlockSections | script/render-guide.js:19-72 | One completed block yields the sections of its own outline. |
| Outline.CodeBlockSections | script/render-guide.js:44-48 | A code block and its fall-through spacer yield no section. |
| Outline.LeafBlockSections | script/render-guide.js:281-602 | A block without nested blocks yields one section if it is a heading or subheading, and none otherwise. |
| Outline.GridRowSections | script/render-guide.js:634-648 | A grid row's sections are those of its columns, in column order. |
| Outline.ColumnSections | script/render-guide.js:609-627 | When every token in a column's children is accepted, the column's sections are those of its children. |
| Outline.ListOutlineIds | script/render-guide.js:300 | Every outline id is a block's id, and no id is used more often than blocks carry it. |
| Outline.AnnotatedListLevels | script/render-guide.js:84 | After the section pass, every section entry at any depth has level "1" or "2". |
| Outline.ChapterOutline | script/render-guide.js:76-96 | When a chapter compiles after the section pass, its sections are the outline of the annotated blocks. No two share an id, and each has level 1 or 2. |
| Decimal.ParseNatToString | script/render-guide.js:79 | The decimal text of a position number parses back to the number. |
| Decimal.NatToStringInjective | script/render-guide.js:79 | Distinct numbers print differently. |

## Left out

- `createPromotion`, `setTitleDoc`, `createChapterNav` and `createChapterTagNav` build page chrome, not chapter content. They are not part of this model.
- The code that calls `createSectionLevel` and then `createContentElement` for a chapter is not part of this model. `Outline.AnnotateThenCompile` is the model's own composition of the two.
- The Prism highlighting call and the console warning at lines 471-475 act on a live page. They are left out.
- `innerHTML` markup, in rich text and video embeds, is kept as opaque text (`Dom.MarkupNode`). It is not parsed. The alert label is also set through `innerHTML`, but it is modelled as the plain text of its `strong` element, because the strings `Alerts.CardIcon` returns contain no markup.
- Blocks are assumed to be well shaped: each payload has the fields its builder reads, with arrays where arrays are read. A missing or non-array content for a list (lines 390 and 407), missing `items` for steps (line 427), a missing table header, rows or cells (lines 495-548), missing `columns` for a grid row (line 642) and missing `el.content.columns` in the section pass (line 87, which aborts `createSectionLevel`) all throw a `TypeError` in the code. These paths are not modelled.
- Numbers are integers and halves. JavaScript's floating-point printing (fractions other than .5, exponent notation) is not modelled. Grid widths are integers, `null` or `undefined`.
- Builders.BuildSpacer: covers an integer `content` (`Blocks.Spacer`). A spacer block whose content is missing or not a number (height "NaNrem" in the code) cannot be represented. "NaNrem" is modelled only for the code-block fall-through, where the content is the code block's object. JavaScript's coercion of numeric strings, arrays or booleans by `*` is not modelled. The `style` map holds the strings the code assigns. The browser's CSS value parsing, which discards an invalid length such as "NaNrem" or a negative height such as "-1.5rem" and so leaves no inline height, is not modelled.
- Compiler.CompileColumn: copies the column's style map onto the wrapper. It does not model the `typeof … === "object"` test or a style that is not an object.
- The `level` counter declared and incremented at lines 77 and 85 is never read. It is left out.
- `#formatGridBreakpoints` is never called by the renderer. It is modelled as `GridLayout.BreakpointLabel` all the same.
- Element identity, `getElement` and the mutable container are replaced by returned node lists.
- A nested id uses the cumulative column prefix `id-1-…-j` for column j (`SectionIds.ColumnPrefixIsCumulative`), not `id-j`. Ids stay unique all the same (`SectionPaths.SectionIdsUnique`).
- Every block is numbered by the section pass, unknown ones included (`SectionIds.InsertShiftsLaterIds`). Only the compiled output ignores unknown blocks (`CompilerFacts.UnknownChangesNothing`).

## Findings

| source | as written | input that shows it | evidently intended | confidence | as-written member | corrected member |
|---|---|---|---|---|---|---|
| script/render-guide.js:624 | `#createGridColumn` calls `createContentElement(...)` without the class name. No such global exists, so every grid column throws a `ReferenceError`. This loses the row and every later block of the list. | `CompilerFacts.RowThenParagraph`: a grid row with one empty column, then a paragraph. Nothing is emitted. | `GenerateElement.createContentElement(columnData.children, contentGrid)`, which compiles the column's blocks into its content box. | not executed; high: the call is unqualified inside a static-method class. | CompilerFacts.ReferenceErrorExample | CompilerFacts.ListCompletes |
