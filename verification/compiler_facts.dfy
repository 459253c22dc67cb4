/**
 * What the dispatcher promises about a whole block list: blocks are handled
 * in order, an unknown type is skipped without stopping the loop, a code
 * block also runs the spacer builder, and compilation completes exactly
 * when every class token it computes is one `classList.add` accepts.
 */
module CompilerFacts {
  import opened Blocks
  import opened Dom
  import opened GridLayout
  import opened Builders
  import opened Compiler

  lemma AndThenAssoc(x: Outcome, y: Outcome, z: Outcome)
    ensures AndThen(AndThen(x, y), z) == AndThen(x, AndThen(y, z))
  {
    if x.completed && y.completed {
      assert x.nodes + y.nodes + z.nodes == x.nodes + (y.nodes + z.nodes);
    }
  }

  /** `CompileList` is `AndThen` over its blocks. */
  lemma CompileListStep(bs: seq<Block>, mode: Mode)
    requires |bs| > 0
    ensures CompileList(bs, mode) == AndThen(CompileBlock(bs[0], mode), CompileList(bs[1..], mode))
  {
  }

  /**
   * Blocks are compiled in input order: the nodes of a concatenation are
   * the nodes of its first part followed, if that part completed, by those
   * of the second.
   */
  lemma {:induction false} CompileListConcat(a: seq<Block>, b: seq<Block>, mode: Mode)
    ensures CompileList(a + b, mode) == AndThen(CompileList(a, mode), CompileList(b, mode))
    decreases |a|
  {
    if |a| == 0 {
      assert a + b == b;
      assert CompileList(a, mode).nodes + CompileList(b, mode).nodes == CompileList(b, mode).nodes;
    } else {
      assert (a + b)[0] == a[0];
      assert (a + b)[1..] == a[1..] + b;
      CompileListStep(a + b, mode);
      CompileListStep(a, mode);
      CompileListConcat(a[1..], b, mode);
      AndThenAssoc(CompileBlock(a[0], mode), CompileList(a[1..], mode), CompileList(b, mode));
    }
  }

  /**
   * `forEach` stops at the first throw: once a part of the list throws,
   * nothing after it is compiled or appended.
   */
  lemma ThrowStopsLoop(a: seq<Block>, b: seq<Block>, mode: Mode)
    requires !CompileList(a, mode).completed
    ensures CompileList(a + b, mode) == CompileList(a, mode)
  {
    CompileListConcat(a, b, mode);
  }

  /**
   * A block that throws keeps what the blocks before it appended, adds
   * nothing itself, and ends the loop.
   */
  lemma ThrowKeepsEarlierNodes(before: seq<Block>, x: Block, after: seq<Block>, mode: Mode)
    requires CompileList(before, mode).completed && !CompileBlock(x, mode).completed
    ensures CompileList(before + [x] + after, mode) == Outcome(CompileList(before, mode).nodes, false)
  {
    assert CompileList([x], mode) == CompileBlock(x, mode) by {
      CompileListStep([x], mode);
    }
    BlockThrowAppendsNothing(x, mode);
    CompileListConcat(before, [x], mode);
    ThrowStopsLoop(before + [x], after, mode);
  }

  /** Every builder throws before it appends: a block that throws appends nothing. */
  lemma BlockThrowAppendsNothing(b: Block, mode: Mode)
    ensures !CompileBlock(b, mode).completed ==> CompileBlock(b, mode).nodes == []
  {
    if b.body.CodeBlock? {
      CodeBlockFallsThrough(b, mode);
    } else if !b.body.Unknown? {
      OneBuilderPerBlock(b, mode);
    }
  }

  /** A block whose type has no case emits nothing and lets the loop go on. */
  lemma UnknownIsSkipped(b: Block, mode: Mode)
    requires b.body.Unknown?
    ensures CompileBlock(b, mode) == Done([])
  {
    DispatchByShape(b.body);
  }

  /** Removing a block of unknown type changes nothing in the output. */
  lemma UnknownChangesNothing(before: seq<Block>, x: Block, after: seq<Block>, mode: Mode)
    requires x.body.Unknown?
    ensures CompileList(before + [x] + after, mode) == CompileList(before + after, mode)
  {
    UnknownIsSkipped(x, mode);
    CompileListConcat(before + [x], after, mode);
    CompileListConcat(before, [x], mode);
    CompileListConcat(before, after, mode);
    assert CompileList([x], mode) == Done([]) by {
      CompileListStep([x], mode);
      assert [x][1..] == [];
    }
    var p := CompileList(before, mode);
    assert AndThen(p, Done([])) == p by {
      assert p.nodes + [] == p.nodes;
    }
  }

  /**
   * A code block emits its code node and then, having no `break`, the
   * spacer node, whose height is `NaN` because its `content` is an object.
   * A language the class list refuses stops both.
   */
  lemma CodeBlockFallsThrough(b: Block, mode: Mode)
    requires b.body.CodeBlock?
    ensures CompileBlock(b, mode) ==
              if NoAsciiSpace(b.body.language)
              then Done([BuildCode(b.body.code, b.body.language).value, BuildSpacer(b.body)])
              else Thrown
    ensures CompileBlock(b, mode).completed ==>
              |CompileBlock(b, mode).nodes| == 2 && CompileBlock(b, mode).nodes[0].tag == "pre"
              && CompileBlock(b, mode).nodes[1].style["height"] == "NaNrem"
  {
    DispatchByShape(b.body);
    var actions := [MakeCodeBlock, MakeSpacer];
    assert CompileBlock(b, mode) == RunActions(actions, b, mode);
    var code := Perform(MakeCodeBlock, b, mode);
    var spacer := Perform(MakeSpacer, b, mode);
    assert code == Attempt(BuildCode(b.body.code, b.body.language));
    assert spacer == Done([BuildSpacer(b.body)]);
    assert actions[1..] == [MakeSpacer];
    assert [MakeSpacer][1..] == [];
    assert RunActions([MakeSpacer], b, mode) == AndThen(spacer, RunActions([], b, mode));
    assert RunActions([MakeSpacer], b, mode) == spacer by {
      assert spacer.nodes + [] == spacer.nodes;
    }
    assert RunActions(actions, b, mode) == if code.completed then AndThen(code, spacer) else code;
  }

  /**
   * Every block except a code block runs exactly the builder made for its
   * shape, once.
   */
  lemma OneBuilderPerBlock(b: Block, mode: Mode)
    requires !b.body.Unknown? && !b.body.CodeBlock?
    ensures CompileBlock(b, mode) == Perform(OwnBuilder(b.body), b, mode)
  {
    DispatchByShape(b.body);
    var a := OwnBuilder(b.body);
    var p := Perform(a, b, mode);
    assert CompileBlock(b, mode) == RunActions([a], b, mode);
    assert [a][1..] == [];
    assert RunActions([a], b, mode) == if p.completed then AndThen(p, RunActions([], b, mode)) else p;
    assert p.nodes + [] == p.nodes;
  }

  // ------------------------------------------------------------ completion

  /** The class tokens a block's own builder computes are all accepted. */
  predicate TokensValid(body: Body) {
    match body
    case Paragraph(_, align, _, _) => NoAsciiSpace(align)
    case Steps(orientation, _) => NoAsciiSpace(orientation)
    case CodeBlock(_, language) => NoAsciiSpace(language)
    case GridRow(align, _) => NoAsciiSpace(align)
    case _ => true
  }

  /** Every block of the list, and every block nested in it, has only accepted tokens. */
  predicate ListRenders(bs: seq<Block>)
    decreases bs, 1
  {
    |bs| == 0 || (BlockRenders(bs[0]) && ListRenders(bs[1..]))
  }

  predicate BlockRenders(b: Block)
    decreases b, 0
  {
    TokensValid(b.body) && (b.body.GridRow? ==> ColumnsRender(b.body.columns))
  }

  predicate ColumnsRender(cols: seq<Column>)
    decreases cols, 0
  {
    |cols| == 0 || (ListRenders(cols[0].children) && ColumnsRender(cols[1..]))
  }

  /** The grid class tokens never make `classList.add` throw. */
  lemma GridClassesValid(c: Column)
    ensures forall k :: 0 <= k < |GridClasses(c)| ==> ValidToken(GridClasses(c)[k])
  {
    var g := GridClasses(c);
    var p := Present(c);
    GridClassesShape(c);
    forall k | 0 <= k < |g| ensures IsToken(g[k]) {
      if k > 0 {
        ClassForIsToken(p[k - 1], WidthAt(c, p[k - 1]));
      } else {
        RowItemIsToken();
      }
    }
    forall k | 0 <= k < |g| ensures NoAsciiSpace(g[k]) {
      TokenHasNoAsciiSpace(g[k]);
    }
  }

  lemma RowItemIsToken()
    ensures IsToken(RowItemClass)
  {
  }

  lemma ClassForIsToken(bp: Breakpoint, w: Width)
    ensures IsToken(ClassFor(bp, w))
  {
    PrefixIsToken(bp);
    TokenConcat(Prefix(bp), WidthText(w));
  }

  lemma PrefixIsToken(bp: Breakpoint)
    ensures IsToken(Prefix(bp))
  {
  }

  lemma TokenHasNoAsciiSpace(t: string)
    requires IsToken(t)
    ensures NoAsciiSpace(t)
  {
    forall k | 0 <= k < |t| ensures !IsAsciiSpace(t[k]) {
      assert !IsWhitespace(t[k]);
    }
  }

  /**
   * A column wrapper's classes are its own class followed by the grid
   * classes, each once, and adding them never throws.
   */
  lemma WrapperClassesOf(c: Column)
    ensures WrapperClasses(c) == Some(["ug-grid-col-wrapper"] + GridClasses(c))
  {
    GridClassesShape(c);
    GridClassesValid(c);
    GridClassesDistinct(c);
    AddClassesFresh(["ug-grid-col-wrapper"], GridClasses(c));
  }

  /** The token a row alignment becomes is accepted exactly when the alignment has no white space. */
  lemma PrefixedTokenValid(prefix: string, s: string)
    requires |prefix| > 0 && NoAsciiSpace(prefix)
    ensures ValidToken(prefix + s) <==> NoAsciiSpace(s)
  {
    NoAsciiSpaceConcat(prefix, s);
  }

  /**
   * With the intended recursive call, compiling a list completes exactly
   * when every computed token in it, at every depth, is accepted.
   */
  lemma {:induction false} ListCompletes(bs: seq<Block>)
    ensures CompileList(bs, Intended).completed <==> ListRenders(bs)
    decreases bs, 1
  {
    if |bs| > 0 {
      CompileListStep(bs, Intended);
      BlockCompletes(bs[0]);
      ListCompletes(bs[1..]);
    }
  }

  lemma {:induction false} BlockCompletes(b: Block)
    ensures CompileBlock(b, Intended).completed <==> BlockRenders(b)
    decreases b, 0
  {
    if b.body.Unknown? {
      UnknownIsSkipped(b, Intended);
    } else if b.body.CodeBlock? {
      CodeBlockFallsThrough(b, Intended);
    } else if b.body.GridRow? {
      OneBuilderPerBlock(b, Intended);
      GridRowCompletes(b.body.align, b.body.columns);
    } else {
      OneBuilderPerBlock(b, Intended);
      LeafCompletes(b);
    }
  }

  /** A builder without nested blocks completes exactly when its own tokens are accepted. */
  lemma LeafCompletes(b: Block)
    requires !b.body.Unknown? && !b.body.CodeBlock? && !b.body.GridRow?
    ensures Perform(OwnBuilder(b.body), b, Intended).completed <==> TokensValid(b.body)
  {
    match b.body
    case Paragraph(_, _, _, _) =>
    case Steps(_, _) =>
    case _ =>
  }

  lemma {:induction false} GridRowCompletes(align: string, cols: seq<Column>)
    ensures CompileGridRow(align, cols, Intended).completed <==> NoAsciiSpace(align) && ColumnsRender(cols)
    decreases cols, 2
  {
    PrefixedTokenValid("ug-", align);
    ColumnsCompletes(cols);
  }

  lemma {:induction false} ColumnsCompletes(cols: seq<Column>)
    ensures CompileColumns(cols, Intended).completed <==> ColumnsRender(cols)
    decreases cols, 1
  {
    if |cols| > 0 {
      ColumnCompletes(cols[0]);
      ColumnsCompletes(cols[1..]);
    }
  }

  lemma {:induction false} ColumnCompletes(c: Column)
    ensures CompileColumn(c, Intended).completed <==> ListRenders(c.children)
    decreases c, 0
  {
    WrapperNeverThrows(c);
    ListCompletes(c.children);
  }

  // ------------------------------------------------ what a grid row holds

  /**
   * A completed grid row is a container around one preview box. The
   * preview's classes are "ug-grid-row-preview" and then "ug-" + align when
   * an alignment is given (`classList.add` skips it when it names the
   * preview class itself), and its children are the column wrappers.
   */
  lemma GridRowContent(align: string, cols: seq<Column>, mode: Mode)
    requires CompileGridRow(align, cols, mode).completed
    ensures CompileColumns(cols, mode).completed
    ensures CompileGridRow(align, cols, mode).nodes[0].tag == "div"
    ensures CompileGridRow(align, cols, mode).nodes[0].children[0].tag == "div"
    ensures CompileGridRow(align, cols, mode).nodes[0].children[0].classes ==
              ["ug-grid-row-preview"] + (if align != "" && align != "grid-row-preview" then ["ug-" + align] else [])
    ensures CompileGridRow(align, cols, mode).nodes[0].children[0].children == CompileColumns(cols, mode).nodes
  {
    if align != "" {
      PreviewClasses(align);
    }
    var preview := if align != "" then TryAddClass(["ug-grid-row-preview"], "ug-" + align) else Some(["ug-grid-row-preview"]);
    assert CompileGridRow(align, cols, mode).nodes[0].children[0] == Element("div", preview.value, CompileColumns(cols, mode).nodes);
  }

  /** The preview's class list once the alignment token is added. */
  lemma PreviewClasses(align: string)
    requires align != ""
    ensures TryAddClass(["ug-grid-row-preview"], "ug-" + align).Some? ==>
              TryAddClass(["ug-grid-row-preview"], "ug-" + align).value ==
                ["ug-grid-row-preview"] + (if align != "grid-row-preview" then ["ug-" + align] else [])
  {
    if "ug-" + align == "ug-grid-row-preview" {
      assert align == ("ug-" + align)[3..];
    }
  }

  /** Wrapper k of a completed column loop is the one column k builds. */
  lemma {:induction false} ColumnsContent(cols: seq<Column>, mode: Mode)
    requires CompileColumns(cols, mode).completed
    ensures forall k :: 0 <= k < |cols| ==>
              CompileColumn(cols[k], mode).completed && CompileColumns(cols, mode).nodes[k] == CompileColumn(cols[k], mode).nodes[0]
    decreases |cols|
  {
    if |cols| > 0 {
      var first, rest := CompileColumn(cols[0], mode), CompileColumns(cols[1..], mode);
      assert first.completed && rest.completed && CompileColumns(cols, mode).nodes == first.nodes + rest.nodes;
      ColumnsContent(cols[1..], mode);
      forall k | 0 <= k < |cols|
        ensures CompileColumn(cols[k], mode).completed && CompileColumns(cols, mode).nodes[k] == CompileColumn(cols[k], mode).nodes[0]
      {
        if k > 0 {
          assert cols[k] == cols[1..][k - 1];
        }
      }
    }
  }

  /**
   * A completed column is a `div` carrying the wrapper class and the grid
   * classes, around a content box that holds the column's compiled children.
   */
  lemma ColumnContent(c: Column, mode: Mode)
    requires CompileColumn(c, mode).completed
    ensures mode == Intended && WrapperClasses(c).Some? && CompileList(c.children, mode).completed
    ensures CompileColumn(c, mode).nodes[0].tag == "div"
    ensures CompileColumn(c, mode).nodes[0].classes == WrapperClasses(c).value
    ensures CompileColumn(c, mode).nodes[0].children[0].children == CompileList(c.children, mode).nodes
  {
  }

  lemma WrapperNeverThrows(c: Column)
    ensures WrapperClasses(c).Some?
  {
    WrapperClassesOf(c);
  }

  // ------------------------------------------- the unqualified dispatcher call

  /** As written, every grid column throws once its classes are set. */
  lemma AsWrittenColumnThrows(c: Column)
    ensures CompileColumn(c, AsWritten) == Thrown
  {
  }

  lemma AsWrittenColumnsThrow(cols: seq<Column>)
    requires |cols| > 0
    ensures CompileColumns(cols, AsWritten) == Thrown
  {
    AsWrittenColumnThrows(cols[0]);
  }

  /** As written, a grid row with at least one column is lost, and so is the rest of its list. */
  lemma AsWrittenGridRowThrows(b: Block, after: seq<Block>)
    requires b.body.GridRow? && |b.body.columns| > 0
    ensures CompileBlock(b, AsWritten) == Thrown
    ensures CompileList([b] + after, AsWritten) == Thrown
  {
    AsWrittenColumnsThrow(b.body.columns);
    assert CompileGridRow(b.body.align, b.body.columns, AsWritten) == Thrown;
    OneBuilderPerBlock(b, AsWritten);
    assert Perform(MakeGridRow, b, AsWritten) == Thrown;
    assert ([b] + after)[0] == b;
    CompileListStep([b] + after, AsWritten);
  }

  const EmptyColumn := Column(Null, Null, Null, Null, Null, Null, map[], [])

  const RowBlock := Block(GridRow("", [EmptyColumn]), "1", 3)

  const ParagraphBlock := Block(Paragraph("after", "", false, false), "2", 3)

  /** A grid row with one empty column, followed by a paragraph. */
  function RowThenParagraph(): seq<Block> {
    [RowBlock, ParagraphBlock]
  }

  /**
   * The input that shows the unqualified call: as written nothing at all
   * is emitted, while the intended call emits the row and the paragraph.
   */
  lemma ReferenceErrorExample()
    ensures CompileList(RowThenParagraph(), AsWritten) == Thrown
    ensures CompileList(RowThenParagraph(), Intended).completed
    ensures |CompileList(RowThenParagraph(), Intended).nodes| == 2
  {
    var bs := RowThenParagraph();
    assert bs == [RowBlock] + [ParagraphBlock];
    AsWrittenGridRowThrows(RowBlock, [ParagraphBlock]);
    RowBlockCompiles();
    ParagraphBlockCompiles();
    CompileListStep(bs, Intended);
    assert bs[1..] == [ParagraphBlock];
  }

  lemma RowBlockCompiles()
    ensures CompileBlock(RowBlock, Intended).completed
    ensures |CompileBlock(RowBlock, Intended).nodes| == 1
  {
    var row := CompileGridRow("", [EmptyColumn], Intended);
    assert row.completed by {
      GridRowCompletes("", [EmptyColumn]);
      assert NoAsciiSpace("");
      assert ListRenders(EmptyColumn.children);
      assert ColumnsRender([EmptyColumn]);
    }
    assert CompileBlock(RowBlock, Intended) == row by {
      OneBuilderPerBlock(RowBlock, Intended);
    }
  }

  lemma ParagraphBlockCompiles()
    ensures CompileList([ParagraphBlock], Intended).completed
    ensures |CompileList([ParagraphBlock], Intended).nodes| == 1
  {
    OneBuilderPerBlock(ParagraphBlock, Intended);
    assert NoAsciiSpace("");
    CompileListStep([ParagraphBlock], Intended);
    assert [ParagraphBlock][1..] == [];
  }

  /** Without grid columns the unqualified call is never reached, and both readings agree. */
  lemma {:induction false} AsWrittenAgreesWithoutColumns(bs: seq<Block>)
    requires forall i :: 0 <= i < |bs| && bs[i].body.GridRow? ==> |bs[i].body.columns| == 0
    ensures CompileList(bs, AsWritten) == CompileList(bs, Intended)
    decreases |bs|
  {
    if |bs| > 0 {
      CompileListStep(bs, AsWritten);
      CompileListStep(bs, Intended);
      var b := bs[0];
      if b.body.Unknown? {
        UnknownIsSkipped(b, AsWritten);
        UnknownIsSkipped(b, Intended);
      } else if b.body.CodeBlock? {
        CodeBlockFallsThrough(b, AsWritten);
        CodeBlockFallsThrough(b, Intended);
      } else {
        OneBuilderPerBlock(b, AsWritten);
        OneBuilderPerBlock(b, Intended);
      }
      AsWrittenAgreesWithoutColumns(bs[1..]);
    }
  }
}
