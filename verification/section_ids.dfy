/**
 * The section pass (`createSectionLevel`): every block, at every nesting
 * depth, receives a dash-joined `sectionId` built from 1-based positions and
 * a `level` (1 heading, 2 subheading, 3 anything else). The pass is pure
 * here: it returns re-annotated copies instead of writing onto its input.
 *
 * Inside a grid row the source extends one running string column after
 * column, so column j (1-based) of a row whose id is `id` hands its children
 * the prefix `id-1-2-...-j`, not `id-j`. The model keeps that behaviour.
 */
module SectionIds {
  import opened Blocks
  import opened Decimal

  function StripLeadingDash(s: string): string {
    if |s| > 0 && s[0] == '-' then s[1..] else s
  }

  /** The id given to the block at 0-based position `i` under `prefix` ("" when absent). */
  function SectionIdAt(prefix: string, i: nat): (id: string)
    ensures prefix == "" ==> id == NatToString(i + 1)
    ensures prefix != "" && prefix[0] != '-' ==> id == prefix + "-" + NatToString(i + 1)
    ensures prefix != "" && prefix[0] == '-' ==> id == prefix[1..] + "-" + NatToString(i + 1)
  {
    StripLeadingDash(prefix + "-" + NatToString(i + 1))
  }

  /** The flat level of a block type; nesting depth plays no part. */
  function LevelOf(tag: string): (level: int)
    ensures level == 1 <==> tag == "heading"
    ensures level == 2 <==> tag == "subheading"
    ensures level == 3 <==> tag != "heading" && tag != "subheading"
  {
    if tag == "heading" then 1 else if tag == "subheading" then 2 else 3
  }

  /** The text "-(lo+1)-(lo+2)-...-hi" that the column loop appends. */
  function Run(lo: nat, hi: nat): string
    requires lo <= hi
    decreases hi
  {
    if lo == hi then "" else Run(lo, hi - 1) + "-" + NatToString(hi)
  }

  lemma {:induction false} RunSplit(a: nat, b: nat, c: nat)
    requires a <= b <= c
    ensures Run(a, c) == Run(a, b) + Run(b, c)
    decreases c - b
  {
    if b < c {
      RunSplit(a, b, c - 1);
    }
  }

  lemma RunStep(acc: string, j: nat)
    ensures forall t :: j + 1 <= t ==> acc + "-" + NatToString(j + 1) + Run(j + 1, t) == acc + Run(j, t)
  {
    forall t | j + 1 <= t
      ensures acc + "-" + NatToString(j + 1) + Run(j + 1, t) == acc + Run(j, t)
    {
      RunSplit(j, j + 1, t);
    }
  }

  /** One step of the per-block `generate` helper for the block at position `i`. */
  function Generate(b: Block, i: nat, prefix: string): (r: Block)
    ensures r.sectionId == SectionIdAt(prefix, i)
    ensures r.level == LevelOf(TypeOf(b.body))
    ensures r.body.GridRow? <==> b.body.GridRow?
    ensures !b.body.GridRow? ==> r.body == b.body
    ensures b.body.GridRow? ==> r.body.align == b.body.align && |r.body.columns| == |b.body.columns|
    decreases b
  {
    var id := SectionIdAt(prefix, i);
    var body :=
      if b.body.GridRow? then GridRow(b.body.align, AnnotateColumns(b.body.columns, id, 0)) else b.body;
    Block(body, id, LevelOf(TypeOf(b.body)))
  }

  /**
   * The column loop of a grid row as written: before column `j` recurses,
   * the running string `acc` is extended by "-(j+1)", and the extended
   * string is carried on to the next column. The contract gives the closed
   * form: column k is annotated under `acc` followed by "-(j+1)-...-(j+k+1)".
   */
  function AnnotateColumns(cols: seq<Column>, acc: string, j: nat): (r: seq<Column>)
    ensures |r| == |cols|
    ensures forall k {:trigger r[k]} :: 0 <= k < |cols| ==>
              r[k] == cols[k].(children := AnnotateFrom(cols[k].children, acc + Run(j, j + k + 1), 0))
    decreases cols
  {
    if |cols| == 0 then []
    else
      var acc' := acc + "-" + NatToString(j + 1);
      var rest := AnnotateColumns(cols[1..], acc', j + 1);
      assert acc + Run(j, j + 1) == acc' by {
        assert Run(j, j + 1) == "-" + NatToString(j + 1);
      }
      assert forall t :: j + 1 <= t ==> acc' + Run(j + 1, t) == acc + Run(j, t) by {
        RunStep(acc, j);
      }
      assert forall k :: 0 <= k < |cols| - 1 ==> cols[1..][k] == cols[k + 1];
      [cols[0].(children := AnnotateFrom(cols[0].children, acc', 0))] + rest
  }

  /** The `forEach` over a block list, numbering from `start`. */
  function AnnotateFrom(bs: seq<Block>, prefix: string, start: nat): (r: seq<Block>)
    ensures |r| == |bs|
  {
    seq(|bs|, i requires 0 <= i < |bs| => Generate(bs[i], start + i, prefix))
  }

  /** Block `i` of the loop is the one `generate` builds at position `start + i`. */
  lemma AnnotateFromAt(bs: seq<Block>, prefix: string, start: nat, i: nat)
    requires i < |bs|
    ensures AnnotateFrom(bs, prefix, start)[i] == Generate(bs[i], start + i, prefix)
  {
  }

  /** A sequence whose later elements are those of `rest`. */
  lemma ConsOf<T>(r: seq<T>, rest: seq<T>)
    requires |r| == |rest| + 1
    requires forall i :: 0 <= i < |rest| ==> r[i + 1] == rest[i]
    ensures r == [r[0]] + rest
  {
    assert r[1..] == rest;
  }

  /** The `forEach`, one block at a time. */
  lemma AnnotateFromStep(bs: seq<Block>, prefix: string, start: nat)
    requires |bs| > 0
    ensures AnnotateFrom(bs, prefix, start) == [Generate(bs[0], start, prefix)] + AnnotateFrom(bs[1..], prefix, start + 1)
  {
    var r := AnnotateFrom(bs, prefix, start);
    var rest := AnnotateFrom(bs[1..], prefix, start + 1);
    AnnotateFromShift(bs, prefix, start);
    AnnotateFromAt(bs, prefix, start, 0);
    ConsOf(r, rest);
  }

  /** Past its first block, the loop is the loop over the remaining blocks, numbered from the next position. */
  lemma AnnotateFromShift(bs: seq<Block>, prefix: string, start: nat)
    requires |bs| > 0
    ensures forall i :: 1 <= i < |bs| ==> AnnotateFrom(bs, prefix, start)[i] == AnnotateFrom(bs[1..], prefix, start + 1)[i - 1]
  {
    forall i | 1 <= i < |bs|
      ensures AnnotateFrom(bs, prefix, start)[i] == AnnotateFrom(bs[1..], prefix, start + 1)[i - 1]
    {
      AnnotateFromAt(bs, prefix, start, i);
      AnnotateFromAt(bs[1..], prefix, start + 1, i - 1);
      assert bs[1..][i - 1] == bs[i];
    }
  }

  /** `createSectionLevel(elements, startNode)`, with "" for a missing `startNode`. */
  function Annotate(bs: seq<Block>, prefix: string): (r: seq<Block>)
    ensures |r| == |bs|
    ensures forall i :: 0 <= i < |bs| ==> r[i].sectionId == SectionIdAt(prefix, i)
    ensures forall i :: 0 <= i < |bs| ==> r[i].level == LevelOf(TypeOf(bs[i].body))
    ensures forall i :: 0 <= i < |bs| && !bs[i].body.GridRow? ==> r[i].body == bs[i].body
    ensures forall i :: 0 <= i < |bs| && bs[i].body.GridRow? ==>
              r[i].body.GridRow? && r[i].body.align == bs[i].body.align && |r[i].body.columns| == |bs[i].body.columns|
  {
    AnnotateFrom(bs, prefix, 0)
  }

  /**
   * Column `k` (0-based) of a grid row recurses with the row's id followed by
   * "-1-2-...-(k+1)", the running string of line 88; the row's own id is the
   * one fixed before the column loop starts.
   */
  lemma GenerateColumnPrefixes(b: Block, i: nat, prefix: string)
    requires b.body.GridRow?
    ensures forall k :: 0 <= k < |b.body.columns| ==>
              Generate(b, i, prefix).body.columns[k] ==
                b.body.columns[k].(children := AnnotateFrom(b.body.columns[k].children, SectionIdAt(prefix, i) + Run(0, k + 1), 0))
  {
  }

  lemma ColumnPrefixIsCumulative(bs: seq<Block>, prefix: string, i: nat, k: nat)
    requires i < |bs| && bs[i].body.GridRow? && k < |bs[i].body.columns|
    ensures Annotate(bs, prefix)[i].body.columns[k] ==
              bs[i].body.columns[k].(children := Annotate(bs[i].body.columns[k].children, SectionIdAt(prefix, i) + Run(0, k + 1)))
    ensures k >= 1 ==> Run(0, k + 1) != "-" + NatToString(k + 1)
  {
    GenerateColumnPrefixes(bs[i], i, prefix);
    if k >= 1 {
      RunNotSingleStep(k + 1);
    }
  }

  /** From the second column on, the running string is longer than one "-(k+1)" step. */
  lemma RunNotSingleStep(hi: nat)
    requires hi >= 2
    ensures Run(0, hi) != "-" + NatToString(hi)
  {
    var run := Run(0, hi);
    RunSplit(0, 1, hi);
    RunSplit(1, 2, hi);
    assert Run(0, 1) == "-" + NatToString(1);
    assert Run(1, 2) == "-" + NatToString(2);
    assert |run| >= 4 && run[2] == '-';
  }

  /** A block with every annotation, nested ones included, cleared. */
  function EraseBlock(b: Block): (r: Block)
    ensures r.sectionId == "" && r.level == 0
    ensures r.body.GridRow? <==> b.body.GridRow?
    ensures !b.body.GridRow? ==> r.body == b.body
    decreases b
  {
    var body := if b.body.GridRow? then GridRow(b.body.align, EraseColumns(b.body.columns)) else b.body;
    Block(body, "", 0)
  }

  function EraseColumns(cols: seq<Column>): (r: seq<Column>)
    ensures |r| == |cols|
    ensures forall k :: 0 <= k < |cols| ==> r[k] == cols[k].(children := EraseList(cols[k].children))
    decreases cols
  {
    if |cols| == 0 then [] else [cols[0].(children := EraseList(cols[0].children))] + EraseColumns(cols[1..])
  }

  function EraseList(bs: seq<Block>): (r: seq<Block>)
    ensures |r| == |bs|
    ensures forall i :: 0 <= i < |bs| ==> r[i] == EraseBlock(bs[i])
    decreases bs
  {
    if |bs| == 0 then [] else [EraseBlock(bs[0])] + EraseList(bs[1..])
  }

  /** The section pass changes nothing but the annotations (lines 83-84). */
  lemma {:induction false} GenerateKeepsContent(b: Block, i: nat, prefix: string)
    ensures EraseBlock(Generate(b, i, prefix)) == EraseBlock(b)
    decreases b, 0
  {
    if b.body.GridRow? {
      var cols := b.body.columns;
      var r := Generate(b, i, prefix);
      GenerateColumnPrefixes(b, i, prefix);
      forall k | 0 <= k < |cols|
        ensures EraseList(r.body.columns[k].children) == EraseList(cols[k].children)
      {
        assert cols[k] in cols;
        AnnotateKeepsContent(cols[k].children, r.sectionId + Run(0, k + 1), 0);
      }
      assert EraseColumns(r.body.columns) == EraseColumns(cols);
    }
  }

  lemma {:induction false} AnnotateKeepsContent(bs: seq<Block>, prefix: string, start: nat)
    ensures EraseList(AnnotateFrom(bs, prefix, start)) == EraseList(bs)
    decreases bs, 1
  {
    forall i | 0 <= i < |bs|
      ensures EraseBlock(AnnotateFrom(bs, prefix, start)[i]) == EraseBlock(bs[i])
    {
      AnnotateFromAt(bs, prefix, start, i);
      GenerateKeepsContent(bs[i], start + i, prefix);
    }
  }

  /** What the pass writes depends only on content and position, never on old annotations. */
  lemma {:induction false} GenerateIgnoresAnnotations(a: Block, b: Block, i: nat, prefix: string)
    requires EraseBlock(a) == EraseBlock(b)
    ensures Generate(a, i, prefix) == Generate(b, i, prefix)
    decreases a, 0
  {
    assert TypeOf(a.body) == TypeOf(b.body) by {
      if a.body.GridRow? {
        assert b.body.GridRow?;
      } else {
        assert a.body == EraseBlock(a).body == EraseBlock(b).body == b.body;
      }
    }
    if a.body.GridRow? {
      var ca, cb := a.body.columns, b.body.columns;
      assert EraseColumns(ca) == EraseBlock(a).body.columns == EraseBlock(b).body.columns == EraseColumns(cb);
      var ra, rb := Generate(a, i, prefix), Generate(b, i, prefix);
      GenerateColumnPrefixes(a, i, prefix);
      GenerateColumnPrefixes(b, i, prefix);
      assert a.body.align == EraseBlock(a).body.align == EraseBlock(b).body.align == b.body.align;
      forall k | 0 <= k < |ca|
        ensures ra.body.columns[k] == rb.body.columns[k]
      {
        assert ca[k] in ca;
        assert EraseColumns(ca)[k] == EraseColumns(cb)[k];
        AnnotateIgnoresAnnotations(ca[k].children, cb[k].children, ra.sectionId + Run(0, k + 1), 0);
      }
      assert ra.body == rb.body;
    } else {
      assert a.body == EraseBlock(a).body == EraseBlock(b).body == b.body;
    }
  }

  lemma {:induction false} AnnotateIgnoresAnnotations(xs: seq<Block>, ys: seq<Block>, prefix: string, start: nat)
    requires EraseList(xs) == EraseList(ys)
    ensures AnnotateFrom(xs, prefix, start) == AnnotateFrom(ys, prefix, start)
    decreases xs, 1
  {
    var ex, ey := EraseList(xs), EraseList(ys);
    assert |xs| == |ex| == |ys|;
    var rx, ry := AnnotateFrom(xs, prefix, start), AnnotateFrom(ys, prefix, start);
    forall i | 0 <= i < |xs|
      ensures rx[i] == ry[i]
    {
      assert ex[i] == EraseBlock(xs[i]) && ey[i] == EraseBlock(ys[i]);
      GenerateIgnoresAnnotations(xs[i], ys[i], start + i, prefix);
    }
    assert rx == ry;
  }

  /** Running the section pass a second time changes nothing. */
  lemma AnnotateIdempotent(bs: seq<Block>, prefix: string)
    ensures Annotate(Annotate(bs, prefix), prefix) == Annotate(bs, prefix)
  {
    AnnotateKeepsContent(bs, prefix, 0);
    AnnotateIgnoresAnnotations(Annotate(bs, prefix), bs, prefix, 0);
  }

  /** Siblings under one prefix never share an id. */
  lemma SectionIdAtInjective(prefix: string, i: nat, j: nat)
    ensures SectionIdAt(prefix, i) == SectionIdAt(prefix, j) ==> i == j
  {
    var a, b := NatToString(i + 1), NatToString(j + 1);
    NatToStringInjective(i + 1, j + 1);
    if prefix != "" {
      var p := if prefix[0] == '-' then prefix[1..] else prefix;
      assert (p + "-" + a)[|p| + 1..] == a;
      assert (p + "-" + b)[|p| + 1..] == b;
    }
  }

  /**
   * Numbering counts every block, whatever its type: inserting any block
   * `x` (one of unknown type included) at position |before| keeps the ids of
   * the earlier siblings and gives every later sibling the id of the next
   * position, which differs from the id it had before.
   */
  lemma InsertShiftsLaterIds(before: seq<Block>, x: Block, after: seq<Block>, prefix: string)
    ensures forall i :: 0 <= i < |before| ==>
              Annotate(before + [x] + after, prefix)[i].sectionId == Annotate(before + after, prefix)[i].sectionId
    ensures forall i :: |before| < i <= |before| + |after| ==>
              Annotate(before + [x] + after, prefix)[i].sectionId == SectionIdAt(prefix, i)
    ensures forall i :: |before| < i <= |before| + |after| ==>
              Annotate(before + [x] + after, prefix)[i].sectionId != Annotate(before + after, prefix)[i - 1].sectionId
  {
    var with, without := Annotate(before + [x] + after, prefix), Annotate(before + after, prefix);
    forall i | |before| < i <= |before| + |after|
      ensures with[i].sectionId != without[i - 1].sectionId
    {
      InsertMovesSibling(before, x, after, prefix, i - 1 - |before|);
    }
  }

  /** Later sibling `k` after an insertion: its new id is the next position's, unlike its old one. */
  lemma InsertMovesSibling(before: seq<Block>, x: Block, after: seq<Block>, prefix: string, k: nat)
    requires k < |after|
    ensures Annotate(before + [x] + after, prefix)[|before| + 1 + k].sectionId == SectionIdAt(prefix, |before| + k + 1)
    ensures Annotate(before + after, prefix)[|before| + k].sectionId == SectionIdAt(prefix, |before| + k)
    ensures SectionIdAt(prefix, |before| + k + 1) != SectionIdAt(prefix, |before| + k)
  {
    SectionIdAtInjective(prefix, |before| + k + 1, |before| + k);
  }

}
