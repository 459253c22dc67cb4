/**
 * Section ids are unique across the whole document. Every block sits at a
 * position — the sequence of (column, 1-based index) steps from the top
 * level down to it — and the section pass gives it the dash-joined numbers
 * of a code of that position: a step into column j at index m contributes
 * "1, 2, ..., j, m", because of the running column prefix. Reading a code
 * from the right recovers the steps (the last number is m, the one before
 * it is j), so distinct positions get distinct ids even though the columns
 * do not contribute just "j".
 */
module SectionPaths {
  import opened Blocks
  import opened Decimal
  import opened Dom
  import opened SectionIds

  /** `col` is 0 at the top level, else the 1-based column; `index` is 1-based. */
  datatype Place = Place(col: nat, index: nat)

  /** 1, 2, ..., n. */
  function Counting(n: nat): (r: seq<nat>)
    ensures |r| == n
    ensures n > 0 ==> r[n - 1] == n
    decreases n
  {
    if n == 0 then [] else Counting(n - 1) + [n]
  }

  /** The numbers the section pass writes for the block at position `p`. */
  function Code(p: seq<Place>): seq<nat>
    decreases |p|
  {
    if |p| == 0 then [] else Code(p[..|p| - 1]) + Counting(p[|p| - 1].col) + [p[|p| - 1].index]
  }

  /** A position in a document: a top-level step, then steps into columns. */
  predicate ValidPath(p: seq<Place>) {
    |p| >= 1 && p[0].col == 0 && forall k :: 1 <= k < |p| ==> p[k].col >= 1
  }

  /** Where a block list sits: the top level, or column `col` (1-based) of the block at `base`. */
  predicate ContextOk(base: seq<Place>, col: nat) {
    (base == [] && col == 0) || (ValidPath(base) && col >= 1)
  }

  lemma {:induction false} CodeLength(p: seq<Place>)
    requires ValidPath(p)
    ensures |Code(p)| >= 1
    ensures |Code(p)| == 1 <==> |p| == 1
    decreases |p|
  {
    if |p| > 1 {
      CodeLength(p[..|p| - 1]);
    }
  }

  /** A code determines its position. */
  lemma {:induction false} CodeInjective(p: seq<Place>, q: seq<Place>)
    requires ValidPath(p) && ValidPath(q)
    requires Code(p) == Code(q)
    ensures p == q
    decreases |p|
  {
    CodeLength(p);
    CodeLength(q);
    if |p| == 1 {
      assert Code(p) == [p[0].index] && Code(q) == [q[0].index];
    } else {
      var p', s := p[..|p| - 1], p[|p| - 1];
      var q', t := q[..|q| - 1], q[|q| - 1];
      var c := Code(p);
      assert c == Code(p') + Counting(s.col) + [s.index];
      assert c == Code(q') + Counting(t.col) + [t.index];
      assert s.index == t.index == c[|c| - 1];
      assert s.col == c[|c| - 2] == t.col;
      assert Code(p') == c[..|c| - s.col - 1] == Code(q');
      CodeInjective(p', q');
      assert p == p' + [s] && q == q' + [t];
    }
  }

  function Strs(ns: seq<nat>): (r: seq<string>)
    ensures |r| == |ns|
    ensures forall i :: 0 <= i < |ns| ==> r[i] == NatToString(ns[i])
    decreases |ns|
  {
    if |ns| == 0 then [] else [NatToString(ns[0])] + Strs(ns[1..])
  }

  /** Numbers joined by "-". */
  function DashJoin(ns: seq<nat>): string {
    Join(Strs(ns), "-")
  }

  lemma DashJoinShape(ns: seq<nat>)
    ensures DashJoin(ns) == "" <==> ns == []
    ensures ns != [] ==> IsDigit(DashJoin(ns)[0])
  {
    if ns != [] {
      JoinHead(Strs(ns), "-");
      var s := NatToString(ns[0]);
      assert DashJoin(ns)[0] == DashJoin(ns)[..|s|][0] == s[0];
    }
  }

  lemma DashJoinSnoc(ns: seq<nat>, n: nat)
    requires ns != []
    ensures DashJoin(ns + [n]) == DashJoin(ns) + "-" + NatToString(n)
  {
    assert Strs(ns + [n]) == Strs(ns) + [NatToString(n)];
    JoinSnoc(Strs(ns), NatToString(n), "-");
  }

  lemma DashJoinInjective(a: seq<nat>, b: seq<nat>)
    requires DashJoin(a) == DashJoin(b)
    ensures a == b
  {
    DashJoinShape(a);
    DashJoinShape(b);
    if a != [] {
      forall ns: seq<nat>, k | ns in {a, b} && 0 <= k < |ns|
        ensures '-' !in Strs(ns)[k]
      {
        assert AllDigits(NatToString(ns[k]));
      }
      SplitJoin(Strs(a), '-');
      SplitJoin(Strs(b), '-');
      assert Strs(a) == Strs(b);
      forall i | 0 <= i < |a|
        ensures a[i] == b[i]
      {
        assert Strs(a)[i] == Strs(b)[i];
        NatToStringInjective(a[i], b[i]);
      }
    }
  }

  /** The id written for position `p`. */
  function PathId(p: seq<Place>): string {
    DashJoin(Code(p))
  }

  function PathIds(ps: seq<seq<Place>>): (r: seq<string>)
    ensures |r| == |ps|
    ensures forall i :: 0 <= i < |ps| ==> r[i] == PathId(ps[i])
    decreases |ps|
  {
    if |ps| == 0 then [] else [PathId(ps[0])] + PathIds(ps[1..])
  }

  lemma PathIdsConcat(a: seq<seq<Place>>, b: seq<seq<Place>>)
    ensures PathIds(a + b) == PathIds(a) + PathIds(b)
  {
    assert forall i :: 0 <= i < |a + b| ==> PathIds(a + b)[i] == (PathIds(a) + PathIds(b))[i];
  }

  /** Distinct positions get distinct ids. */
  lemma PathIdsUnique(ps: seq<seq<Place>>)
    requires NoDuplicates(ps)
    requires forall p :: p in ps ==> ValidPath(p)
    ensures NoDuplicates(PathIds(ps))
  {
    forall i, j | 0 <= i < j < |ps|
      ensures PathIds(ps)[i] != PathIds(ps)[j]
    {
      if PathId(ps[i]) == PathId(ps[j]) {
        DashJoinInjective(Code(ps[i]), Code(ps[j]));
        CodeInjective(ps[i], ps[j]);
      }
    }
  }

  // Every section id of an annotated tree, in document (pre-)order.

  function ListIds(bs: seq<Block>): seq<string>
    decreases bs
  {
    if |bs| == 0 then [] else BlockIds(bs[0]) + ListIds(bs[1..])
  }

  function BlockIds(b: Block): seq<string>
    decreases b
  {
    [b.sectionId] + (if b.body.GridRow? then ColumnIds(b.body.columns) else [])
  }

  function ColumnIds(cols: seq<Column>): seq<string>
    decreases cols
  {
    if |cols| == 0 then [] else ListIds(cols[0].children) + ColumnIds(cols[1..])
  }

  // The position of every block, in the same order.

  function ListPositions(bs: seq<Block>, base: seq<Place>, col: nat, start: nat): seq<seq<Place>>
    decreases bs
  {
    if |bs| == 0 then []
    else BlockPositions(bs[0], base + [Place(col, start + 1)]) + ListPositions(bs[1..], base, col, start + 1)
  }

  function BlockPositions(b: Block, q: seq<Place>): seq<seq<Place>>
    decreases b
  {
    [q] + (if b.body.GridRow? then ColumnPositions(b.body.columns, q, 1) else [])
  }

  function ColumnPositions(cols: seq<Column>, q: seq<Place>, col: nat): seq<seq<Place>>
    decreases cols
  {
    if |cols| == 0 then []
    else ListPositions(cols[0].children, q, col, 0) + ColumnPositions(cols[1..], q, col + 1)
  }

  lemma SectionIdOfCode(c: seq<nat>, i: nat)
    ensures SectionIdAt(DashJoin(c), i) == DashJoin(c + [i + 1])
  {
    DashJoinShape(c);
    if c == [] {
      assert c + [i + 1] == [i + 1];
    } else {
      DashJoinSnoc(c, i + 1);
    }
  }

  lemma {:induction false} ListIdsAreCodes(bs: seq<Block>, base: seq<Place>, col: nat, start: nat)
    requires ContextOk(base, col)
    ensures ListIds(AnnotateFrom(bs, DashJoin(Code(base) + Counting(col)), start))
         == PathIds(ListPositions(bs, base, col, start))
    decreases bs
  {
    if |bs| > 0 {
      var prefix := DashJoin(Code(base) + Counting(col));
      var r := AnnotateFrom(bs, prefix, start);
      var tail := AnnotateFrom(bs[1..], prefix, start + 1);
      AnnotateFromStep(bs, prefix, start);
      assert r[1..] == tail;
      BlockIdsAreCodes(bs[0], base, col, start);
      ListIdsAreCodes(bs[1..], base, col, start + 1);
      PathIdsConcat(BlockPositions(bs[0], base + [Place(col, start + 1)]), ListPositions(bs[1..], base, col, start + 1));
    }
  }

  lemma {:induction false} BlockIdsAreCodes(b: Block, base: seq<Place>, col: nat, i: nat)
    requires ContextOk(base, col)
    ensures BlockIds(Generate(b, i, DashJoin(Code(base) + Counting(col))))
         == PathIds(BlockPositions(b, base + [Place(col, i + 1)]))
    decreases b, 1
  {
    var c := Code(base) + Counting(col);
    var q := base + [Place(col, i + 1)];
    assert q[..|q| - 1] == base;
    assert Code(q) == c + [i + 1];
    SectionIdOfCode(c, i);
    var g := Generate(b, i, DashJoin(c));
    assert g.sectionId == PathId(q);
    assert ValidPath(q);
    if b.body.GridRow? {
      GridRowIds(b, i, DashJoin(c));
      GridBlockIdsAreCodes(b, q, PathId(q));
    } else {
      assert BlockIds(g) == [PathId(q)];
      assert PathIds([q]) == [PathId(q)];
    }
  }

  lemma GridBlockIdsAreCodes(b: Block, q: seq<Place>, id: string)
    requires b.body.GridRow? && ValidPath(q)
    requires id == PathId(q)
    ensures [id] + ColumnIds(AnnotateColumns(b.body.columns, id, 0)) == PathIds(BlockPositions(b, q))
    decreases b, 0
  {
    var cols := b.body.columns;
    assert Code(q) + Counting(0) == Code(q);
    ColumnIdsAreCodes(cols, q, 0, id);
    var cp := ColumnPositions(cols, q, 1);
    PathIdsConcat([q], cp);
    assert PathIds([q]) == [id];
  }

  lemma GridRowIds(b: Block, i: nat, prefix: string)
    requires b.body.GridRow?
    ensures BlockIds(Generate(b, i, prefix))
         == [SectionIdAt(prefix, i)] + ColumnIds(AnnotateColumns(b.body.columns, SectionIdAt(prefix, i), 0))
  {
  }

  lemma {:induction false} ColumnIdsAreCodes(cols: seq<Column>, q: seq<Place>, j: nat, acc: string)
    requires ValidPath(q)
    requires acc == DashJoin(Code(q) + Counting(j))
    ensures ColumnIds(AnnotateColumns(cols, acc, j)) == PathIds(ColumnPositions(cols, q, j + 1))
    decreases cols
  {
    if |cols| > 0 {
      CodeLength(q);
      DashJoinSnoc(Code(q) + Counting(j), j + 1);
      assert Code(q) + Counting(j) + [j + 1] == Code(q) + Counting(j + 1);
      var acc' := DashJoin(Code(q) + Counting(j + 1));
      assert acc' == acc + "-" + NatToString(j + 1);
      var r := AnnotateColumns(cols, acc, j);
      var tail := AnnotateColumns(cols[1..], acc', j + 1);
      assert r[1..] == tail;
      ListIdsAreCodes(cols[0].children, q, j + 1, 0);
      ColumnIdsAreCodes(cols[1..], q, j + 1, acc');
      PathIdsConcat(ListPositions(cols[0].children, q, j + 1, 0), ColumnPositions(cols[1..], q, j + 2));
    }
  }

  /** `p` lies in column `col` below `base`, at an index in (lo, hi]. */
  predicate Below(p: seq<Place>, base: seq<Place>, col: nat, lo: nat, hi: nat) {
    && |p| > |base| && p[..|base|] == base
    && p[|base|].col == col && lo < p[|base|].index <= hi
    && ValidPath(p)
  }

  lemma ExtensionsBelow(ps: seq<seq<Place>>, base: seq<Place>, col: nat, start: nat)
    requires forall p :: p in ps ==> |p| >= |base| + 1 && p[..|base| + 1] == base + [Place(col, start + 1)] && ValidPath(p)
    ensures forall p :: p in ps ==> Below(p, base, col, start, start + 1)
  {
    forall p | p in ps
      ensures Below(p, base, col, start, start + 1)
    {
      var q := base + [Place(col, start + 1)];
      assert p[..|base|] == p[..|q|][..|base|] == base;
      assert p[|base|] == p[..|q|][|base|] == Place(col, start + 1);
    }
  }

  lemma {:induction false} ListPositionsShape(bs: seq<Block>, base: seq<Place>, col: nat, start: nat)
    requires ContextOk(base, col)
    ensures forall p :: p in ListPositions(bs, base, col, start) ==> Below(p, base, col, start, start + |bs|)
    ensures NoDuplicates(ListPositions(bs, base, col, start))
    decreases bs
  {
    if |bs| > 0 {
      var q := base + [Place(col, start + 1)];
      ChildPlace(base, col, start);
      var head, tail := BlockPositions(bs[0], q), ListPositions(bs[1..], base, col, start + 1);
      assert ListPositions(bs, base, col, start) == head + tail;
      BlockPositionsShape(bs[0], q);
      ListPositionsShape(bs[1..], base, col, start + 1);
      ConsPositions(head, tail, base, col, start, start + |bs|);
    }
  }

  lemma ChildPlace(base: seq<Place>, col: nat, start: nat)
    requires ContextOk(base, col)
    ensures (base + [Place(col, start + 1)])[..|base|] == base
    ensures ValidPath(base + [Place(col, start + 1)])
  {
    var q := base + [Place(col, start + 1)];
    assert q[..|base|] == base;
  }

  /** The positions of one block followed by those of its later siblings. */
  lemma ConsPositions(head: seq<seq<Place>>, tail: seq<seq<Place>>, base: seq<Place>, col: nat, start: nat, hi: nat)
    requires start < hi
    requires forall p :: p in head ==> |p| >= |base| + 1 && p[..|base| + 1] == base + [Place(col, start + 1)] && ValidPath(p)
    requires forall p :: p in tail ==> Below(p, base, col, start + 1, hi)
    requires NoDuplicates(head) && NoDuplicates(tail)
    ensures forall p :: p in head + tail ==> Below(p, base, col, start, hi)
    ensures NoDuplicates(head + tail)
  {
    ExtensionsBelow(head, base, col, start);
    forall p | p in tail
      ensures p !in head
    {
      BelowDisjoint(p, base, col, start, start + 1, start + 1, hi);
    }
    NoDuplicatesConcat(head, tail);
    forall p | p in head + tail
      ensures Below(p, base, col, start, hi)
    {
      if p in head {
        BelowWiden(p, base, col, start, start + 1, start, hi);
      } else {
        BelowWiden(p, base, col, start + 1, hi, start, hi);
      }
    }
  }

  lemma BelowWiden(p: seq<Place>, base: seq<Place>, col: nat, lo: nat, hi: nat, lo': nat, hi': nat)
    requires Below(p, base, col, lo, hi) && lo' <= lo && hi <= hi'
    ensures Below(p, base, col, lo', hi')
  {
  }

  lemma BelowDisjoint(p: seq<Place>, base: seq<Place>, col: nat, lo: nat, hi: nat, lo': nat, hi': nat)
    requires Below(p, base, col, lo', hi') && hi <= lo'
    ensures !Below(p, base, col, lo, hi)
  {
  }

  lemma {:induction false} BlockPositionsShape(b: Block, q: seq<Place>)
    requires ValidPath(q)
    ensures forall p: seq<Place> :: p in BlockPositions(b, q) ==> |p| >= |q| && p[..|q|] == q && ValidPath(p)
    ensures NoDuplicates(BlockPositions(b, q))
    decreases b
  {
    if b.body.GridRow? {
      ColumnPositionsShape(b.body.columns, q, 1);
      NoDuplicatesConcat([q], ColumnPositions(b.body.columns, q, 1));
    }
  }

  /** `p` lies below `q`, in a column numbered in [lo, hi). */
  predicate InColumns(p: seq<Place>, q: seq<Place>, lo: nat, hi: nat) {
    |p| > |q| && p[..|q|] == q && lo <= p[|q|].col < hi && ValidPath(p)
  }

  lemma {:induction false} ColumnPositionsShape(cols: seq<Column>, q: seq<Place>, col: nat)
    requires ValidPath(q) && col >= 1
    ensures forall p: seq<Place> :: p in ColumnPositions(cols, q, col) ==> InColumns(p, q, col, col + |cols|)
    ensures NoDuplicates(ColumnPositions(cols, q, col))
    decreases cols
  {
    if |cols| > 0 {
      var first, rest := ListPositions(cols[0].children, q, col, 0), ColumnPositions(cols[1..], q, col + 1);
      assert ColumnPositions(cols, q, col) == first + rest;
      ListPositionsShape(cols[0].children, q, col, 0);
      ColumnPositionsShape(cols[1..], q, col + 1);
      ConsColumns(first, rest, q, col, |cols[0].children|, col + |cols|);
    }
  }

  /** The positions under one column followed by those under the later columns. */
  lemma ConsColumns(first: seq<seq<Place>>, rest: seq<seq<Place>>, q: seq<Place>, col: nat, n: nat, hi: nat)
    requires col < hi
    requires forall p :: p in first ==> Below(p, q, col, 0, n)
    requires forall p :: p in rest ==> InColumns(p, q, col + 1, hi)
    requires NoDuplicates(first) && NoDuplicates(rest)
    ensures forall p :: p in first + rest ==> InColumns(p, q, col, hi)
    ensures NoDuplicates(first + rest)
  {
    forall p | p in rest
      ensures p !in first
    {
      assert !Below(p, q, col, 0, n);
    }
    NoDuplicatesConcat(first, rest);
  }

  /**
   * After the section pass over a whole document, every block — nested ones
   * included — carries the id of its own position, and no two blocks share one.
   */
  lemma SectionIdsUnique(bs: seq<Block>)
    ensures ListIds(Annotate(bs, "")) == PathIds(ListPositions(bs, [], 0, 0))
    ensures NoDuplicates(ListIds(Annotate(bs, "")))
  {
    assert Code([]) + Counting(0) == [];
    assert DashJoin([]) == "";
    ListIdsAreCodes(bs, [], 0, 0);
    ListPositionsShape(bs, [], 0, 0);
    PathIdsUnique(ListPositions(bs, [], 0, 0));
  }
}
