/**
 * Responsive grid columns: the CSS classes a column's six breakpoint widths
 * turn into, and the short label that describes the same widths.
 *
 * Both are written in the renderer as a chain of six `!== null` tests. Here
 * each is modelled that way (`GridClassString`, `BreakpointLabel`) and also
 * given a reference reading over the list of breakpoints a column sets
 * (`Present`), and lemmas tie the two together.
 */
module GridLayout {
  import opened Blocks
  import opened Decimal
  import opened Dom

  datatype Breakpoint = XS | SM | MD | LG | XL | XXL

  /** The breakpoints, in the order the renderer tests them. */
  const AllBreakpoints: seq<Breakpoint> := [XS, SM, MD, LG, XL, XXL]

  /** The class every grid column starts with. */
  const RowItemClass := "ug-grid-row-item"

  function WidthAt(c: Column, bp: Breakpoint): Width {
    match bp
    case XS => c.xs
    case SM => c.sm
    case MD => c.md
    case LG => c.lg
    case XL => c.xl
    case XXL => c.xxl
  }

  /** The upper-case name the label uses for a breakpoint. */
  function Name(bp: Breakpoint): (s: string)
    ensures |s| >= 2 && s[0] in "XSML"
  {
    match bp
    case XS => "XS"
    case SM => "SM"
    case MD => "MD"
    case LG => "LG"
    case XL => "XL"
    case XXL => "XXL"
  }

  /**
   * A width interpolated into a template literal: `null` and a missing field
   * print as words, a number in decimal.
   */
  function WidthText(w: Width): (s: string)
    ensures |s| >= 1 && IsToken(s)
    ensures s[0] == 'n' || s[0] == 'u' || s[0] == '-' || IsDigit(s[0])
  {
    match w
    case Null => "null"
    case Undefined => "undefined"
    case Val(n) => IntToString(n)
  }

  /** Distinct widths print differently. */
  lemma WidthTextInjective(v: Width, w: Width)
    requires WidthText(v) == WidthText(w)
    ensures v == w
  {
    if v.Val? && w.Val? {
      IntToStringInjective(v.n, w.n);
    }
  }

  /**
   * The class a set breakpoint contributes: the extra-small width has no
   * infix, the others carry their name in lower case.
   */
  function Prefix(bp: Breakpoint): string {
    match bp
    case XS => "ug-grid-"
    case SM => "ug-grid-sm-"
    case MD => "ug-grid-md-"
    case LG => "ug-grid-lg-"
    case XL => "ug-grid-xl-"
    case XXL => "ug-grid-xxl-"
  }

  function ClassFor(bp: Breakpoint, w: Width): string {
    Prefix(bp) + WidthText(w)
  }

  /** The entry a set breakpoint contributes to the label. */
  function PartFor(bp: Breakpoint, w: Width): string {
    Name(bp) + ":" + WidthText(w)
  }

  lemma TokenConcat(a: string, b: string)
    requires IsToken(a) && IsToken(b)
    ensures IsToken(a + b)
  {
    forall k | 0 <= k < |a + b| ensures !IsWhitespace((a + b)[k]) {
      if k >= |a| {
        assert (a + b)[k] == b[k - |a|];
      }
    }
  }

  /**
   * Every grid class is a non-empty token without a space, ending in a
   * character `trim()` keeps, and its ninth and tenth characters tell the
   * breakpoint apart.
   */
  lemma ClassForShape(bp: Breakpoint, w: Width)
    ensures ' ' !in ClassFor(bp, w) && |ClassFor(bp, w)| >= 9
    ensures !IsWhitespace(ClassFor(bp, w)[|ClassFor(bp, w)| - 1])
    ensures bp == XS <==> ClassFor(bp, w)[8] !in "smlxrc"
    ensures bp == SM <==> ClassFor(bp, w)[8] == 's'
    ensures bp == MD <==> ClassFor(bp, w)[8] == 'm'
    ensures bp == LG <==> ClassFor(bp, w)[8] == 'l'
    ensures bp == XL <==> ClassFor(bp, w)[8] == 'x' && |ClassFor(bp, w)| >= 10 && ClassFor(bp, w)[9] == 'l'
    ensures bp == XXL <==> ClassFor(bp, w)[8] == 'x' && |ClassFor(bp, w)| >= 10 && ClassFor(bp, w)[9] == 'x'
  {
    var t := WidthText(w);
    var p := Prefix(bp);
    assert ' ' !in p;
    assert ClassFor(bp, w)[|ClassFor(bp, w)| - 1] == t[|t| - 1];
    if bp == XS {
      assert ClassFor(bp, w)[8] == t[0];
    }
  }

  /** Two grid classes are equal only for the same breakpoint and width. */
  lemma ClassForInjective(a: Breakpoint, v: Width, b: Breakpoint, w: Width)
    requires ClassFor(a, v) == ClassFor(b, w)
    ensures a == b && v == w
  {
    ClassForShape(a, v);
    ClassForShape(b, w);
    var n := |ClassFor(a, v)| - |WidthText(v)|;
    assert WidthText(v) == ClassFor(a, v)[n..];
    assert WidthText(w) == ClassFor(b, w)[n..];
    WidthTextInjective(v, w);
  }

  /** The breakpoints of `bps` whose width is not `null`, in order. */
  function PresentIn(c: Column, bps: seq<Breakpoint>): (r: seq<Breakpoint>)
    ensures |r| <= |bps|
    decreases |bps|
  {
    if |bps| == 0 then []
    else (if WidthAt(c, bps[0]).Null? then [] else [bps[0]]) + PresentIn(c, bps[1..])
  }

  lemma {:induction false} PresentInConcat(c: Column, a: seq<Breakpoint>, b: seq<Breakpoint>)
    ensures PresentIn(c, a + b) == PresentIn(c, a) + PresentIn(c, b)
    decreases |a|
  {
    if |a| == 0 {
      assert a + b == b;
    } else {
      assert (a + b)[0] == a[0];
      assert (a + b)[1..] == a[1..] + b;
      PresentInConcat(c, a[1..], b);
    }
  }

  /** The breakpoints a column sets, in the renderer's order. */
  function Present(c: Column): seq<Breakpoint> {
    PresentIn(c, AllBreakpoints)
  }

  function ClassesOf(c: Column, bps: seq<Breakpoint>): (r: seq<string>)
    ensures |r| == |bps|
    ensures forall k :: 0 <= k < |bps| ==> r[k] == ClassFor(bps[k], WidthAt(c, bps[k]))
    decreases |bps|
  {
    if |bps| == 0 then [] else [ClassFor(bps[0], WidthAt(c, bps[0]))] + ClassesOf(c, bps[1..])
  }

  function PartsOf(c: Column, bps: seq<Breakpoint>): (r: seq<string>)
    ensures |r| == |bps|
    ensures forall k :: 0 <= k < |bps| ==> r[k] == PartFor(bps[k], WidthAt(c, bps[k]))
    decreases |bps|
  {
    if |bps| == 0 then [] else [PartFor(bps[0], WidthAt(c, bps[0]))] + PartsOf(c, bps[1..])
  }

  /** Reference reading of the class list: the row-item class, then one class per set breakpoint. */
  function GridClasses(c: Column): seq<string> {
    [RowItemClass] + ClassesOf(c, Present(c))
  }

  /** Reference reading of the label entries: one per set breakpoint. */
  function LabelParts(c: Column): seq<string> {
    PartsOf(c, Present(c))
  }

  /** One `if (w !== null) classes += ` ${prefix}${w}`` step. */
  function AppendIfSet(classes: string, w: Width, prefix: string): string {
    if w != Null then classes + " " + prefix + WidthText(w) else classes
  }

  /** The `classes` string of `#getGridClasses` after its six guarded appends. */
  function UntrimmedClasses(c: Column): string {
    var s1 := AppendIfSet(RowItemClass, c.xs, "ug-grid-");
    var s2 := AppendIfSet(s1, c.sm, "ug-grid-sm-");
    var s3 := AppendIfSet(s2, c.md, "ug-grid-md-");
    var s4 := AppendIfSet(s3, c.lg, "ug-grid-lg-");
    var s5 := AppendIfSet(s4, c.xl, "ug-grid-xl-");
    AppendIfSet(s5, c.xxl, "ug-grid-xxl-")
  }

  /**
   * `#getGridClasses` as written: the appended string, trimmed. It is the
   * reference class list joined with single spaces, so splitting it on a
   * space (as `#createGridColumn` does) gives back exactly that list: the
   * row-item class, then one class per set breakpoint in the fixed order
   * xs, sm, md, lg, xl, xxl.
   */
  function GridClassString(c: Column): (s: string)
    ensures s == Join(GridClasses(c), " ")
    ensures Split(s, ' ') == GridClasses(c)
  {
    UntrimmedIsJoin(c);
    GridClassesShape(c);
    TrimmedJoinSplits(GridClasses(c));
    Trim(UntrimmedClasses(c))
  }

  /** One `if (w !== null) parts.push(`${name}:${w}`)` step. */
  function PushIfSet(parts: seq<string>, w: Width, name: string): seq<string> {
    if w != Null then parts + [name + ":" + WidthText(w)] else parts
  }

  /** The `parts` array of `#formatGridBreakpoints` after its six guarded pushes. */
  function LabelEntries(c: Column): seq<string> {
    var p1 := PushIfSet([], c.xs, "XS");
    var p2 := PushIfSet(p1, c.sm, "SM");
    var p3 := PushIfSet(p2, c.md, "MD");
    var p4 := PushIfSet(p3, c.lg, "LG");
    var p5 := PushIfSet(p4, c.xl, "XL");
    PushIfSet(p5, c.xxl, "XXL")
  }

  /**
   * `#formatGridBreakpoints` as written: the entries parenthesised and
   * comma-joined, or the default text. It lists one "NAME:width" entry per
   * set breakpoint, in the same order as the classes, and shows the default
   * text exactly when every breakpoint is `null`.
   */
  function BreakpointLabel(c: Column): (r: string)
    ensures r == if |LabelParts(c)| == 0 then "(Default Penuh)" else "(" + Join(LabelParts(c), ", ") + ")"
    ensures |LabelParts(c)| == |GridClasses(c)| - 1
    ensures r == "(Default Penuh)" <==> forall bp :: WidthAt(c, bp).Null?
  {
    LabelEntriesParts(c);
    PresentEmpty(c);
    LabelPartsNotDefault(c);
    var parts := LabelEntries(c);
    if |parts| > 0 then "(" + Join(parts, ", ") + ")" else "(Default Penuh)"
  }

  /** `Present` taken apart breakpoint by breakpoint. */
  lemma PresentUnfold(c: Column)
    ensures Present(c) == PresentIn(c, [XS]) + PresentIn(c, [SM]) + PresentIn(c, [MD])
                        + PresentIn(c, [LG]) + PresentIn(c, [XL]) + PresentIn(c, [XXL])
  {
    var q2 := [XS, SM];
    var q3 := [XS, SM, MD];
    var q4 := [XS, SM, MD, LG];
    var q5 := [XS, SM, MD, LG, XL];
    assert q2 == [XS] + [SM];
    assert q3 == q2 + [MD];
    assert q4 == q3 + [LG];
    assert q5 == q4 + [XL];
    assert AllBreakpoints == q5 + [XXL];
    PresentInConcat(c, [XS], [SM]);
    PresentInConcat(c, q2, [MD]);
    PresentInConcat(c, q3, [LG]);
    PresentInConcat(c, q4, [XL]);
    PresentInConcat(c, q5, [XXL]);
  }

  lemma {:induction false} PresentInMembers(c: Column, bps: seq<Breakpoint>, bp: Breakpoint)
    ensures bp in PresentIn(c, bps) <==> bp in bps && !WidthAt(c, bp).Null?
    decreases |bps|
  {
    if |bps| > 0 {
      PresentInMembers(c, bps[1..], bp);
      assert bps == [bps[0]] + bps[1..];
    }
  }

  lemma {:induction false} PresentInDistinct(c: Column, bps: seq<Breakpoint>)
    requires NoDuplicates(bps)
    ensures NoDuplicates(PresentIn(c, bps))
    decreases |bps|
  {
    if |bps| > 0 {
      var rest := bps[1..];
      assert NoDuplicates(rest) by {
        forall i, j | 0 <= i < j < |rest| ensures rest[i] != rest[j] {
          assert rest[i] == bps[i + 1] && rest[j] == bps[j + 1];
        }
      }
      PresentInDistinct(c, rest);
      PresentInMembers(c, rest, bps[0]);
      assert bps[0] !in rest by {
        forall k | 0 <= k < |rest| ensures rest[k] != bps[0] {
          assert rest[k] == bps[k + 1];
        }
      }
      var head := if WidthAt(c, bps[0]).Null? then [] else [bps[0]];
      NoDuplicatesConcat(head, PresentIn(c, rest));
    }
  }

  /** A column's breakpoints are exactly the ones it does not leave `null`, each once. */
  lemma PresentSpec(c: Column)
    ensures forall bp :: bp in Present(c) <==> !WidthAt(c, bp).Null?
    ensures NoDuplicates(Present(c))
  {
    forall bp ensures bp in Present(c) <==> !WidthAt(c, bp).Null? {
      PresentInMembers(c, AllBreakpoints, bp);
      match bp
      case XS => assert AllBreakpoints[0] == bp;
      case SM => assert AllBreakpoints[1] == bp;
      case MD => assert AllBreakpoints[2] == bp;
      case LG => assert AllBreakpoints[3] == bp;
      case XL => assert AllBreakpoints[4] == bp;
      case XXL => assert AllBreakpoints[5] == bp;
    }
    PresentInDistinct(c, AllBreakpoints);
  }

  lemma {:induction false} ClassesOfConcat(c: Column, a: seq<Breakpoint>, b: seq<Breakpoint>)
    ensures ClassesOf(c, a + b) == ClassesOf(c, a) + ClassesOf(c, b)
  {
  }

  /** One guarded append of the class string is one more token of the join. */
  lemma ClassStep(ts: seq<string>, c: Column, bp: Breakpoint, s: string)
    requires |ts| >= 1 && s == Join(ts, " ")
    ensures AppendIfSet(s, WidthAt(c, bp), Prefix(bp)) == Join(ts + ClassesOf(c, PresentIn(c, [bp])), " ")
  {
    var one := PresentIn(c, [bp]);
    assert [bp][1..] == [];
    if WidthAt(c, bp) != Null {
      assert one == [bp];
      assert ClassesOf(c, one) == [ClassFor(bp, WidthAt(c, bp))];
      JoinSnoc(ts, ClassFor(bp, WidthAt(c, bp)), " ");
    } else {
      assert one == [];
      assert ts + ClassesOf(c, one) == ts;
    }
  }

  lemma {:induction false} JoinLast(ts: seq<string>, sep: string)
    requires |ts| >= 1 && |ts[|ts| - 1]| >= 1
    ensures |Join(ts, sep)| >= 1
    ensures Join(ts, sep)[|Join(ts, sep)| - 1] == ts[|ts| - 1][|ts[|ts| - 1]| - 1]
  {
    if |ts| >= 2 {
      var init := ts[..|ts| - 1];
      assert ts == init + [ts[|ts| - 1]];
      JoinSnoc(init, ts[|ts| - 1], sep);
    }
  }

  /** Space-joined tokens that start and end untrimmable survive `trim()` and split back apart. */
  lemma TrimmedJoinSplits(g: seq<string>)
    requires |g| >= 1 && |g[0]| >= 1 && g[0][0] == 'u'
    requires forall k :: 0 <= k < |g| ==> ClassShaped(g[k])
    ensures Trim(Join(g, " ")) == Join(g, " ")
    ensures Split(Join(g, " "), ' ') == g
  {
    var j := Join(g, " ");
    JoinHead(g, " ");
    assert j[0] == g[0][0];
    JoinLast(g, " ");
    SplitJoin(g, ' ');
  }

  /** Each class is non-empty, holds no space and ends in a character `trim()` keeps. */
  lemma GridClassesShape(c: Column)
    ensures forall k :: 0 <= k < |GridClasses(c)| ==> ClassShaped(GridClasses(c)[k])
  {
    var p := Present(c);
    var g := GridClasses(c);
    forall k | 0 <= k < |g| ensures ClassShaped(g[k]) {
      if k > 0 {
        assert g[k] == ClassFor(p[k - 1], WidthAt(c, p[k - 1]));
        ClassForShape(p[k - 1], WidthAt(c, p[k - 1]));
      } else {
        assert RowItemClass[|RowItemClass| - 1] == 'm';
      }
    }
  }

  predicate ClassShaped(t: string) {
    |t| >= 1 && ' ' !in t && !IsWhitespace(t[|t| - 1])
  }

  /** The appended string is the reference class list joined with spaces. */
  lemma UntrimmedIsJoin(c: Column)
    ensures UntrimmedClasses(c) == Join(GridClasses(c), " ")
  {
    var s1 := AppendIfSet(RowItemClass, c.xs, "ug-grid-");
    var s2 := AppendIfSet(s1, c.sm, "ug-grid-sm-");
    var s3 := AppendIfSet(s2, c.md, "ug-grid-md-");
    var s4 := AppendIfSet(s3, c.lg, "ug-grid-lg-");
    var s5 := AppendIfSet(s4, c.xl, "ug-grid-xl-");
    var p1 := PresentIn(c, [XS]);
    var p2 := p1 + PresentIn(c, [SM]);
    var p3 := p2 + PresentIn(c, [MD]);
    var p4 := p3 + PresentIn(c, [LG]);
    var p5 := p4 + PresentIn(c, [XL]);
    var p6 := p5 + PresentIn(c, [XXL]);
    PresentUnfold(c);
    assert p6 == Present(c);
    var t0 := [RowItemClass];
    ClassStep(t0, c, XS, RowItemClass);
    ClassStep(t0 + ClassesOf(c, p1), c, SM, s1);
    ClassAssoc(c, p1, PresentIn(c, [SM]));
    ClassStep(t0 + ClassesOf(c, p2), c, MD, s2);
    ClassAssoc(c, p2, PresentIn(c, [MD]));
    ClassStep(t0 + ClassesOf(c, p3), c, LG, s3);
    ClassAssoc(c, p3, PresentIn(c, [LG]));
    ClassStep(t0 + ClassesOf(c, p4), c, XL, s4);
    ClassAssoc(c, p4, PresentIn(c, [XL]));
    ClassStep(t0 + ClassesOf(c, p5), c, XXL, s5);
    ClassAssoc(c, p5, PresentIn(c, [XXL]));
  }

  lemma ClassAssoc(c: Column, a: seq<Breakpoint>, b: seq<Breakpoint>)
    ensures [RowItemClass] + ClassesOf(c, a) + ClassesOf(c, b) == [RowItemClass] + ClassesOf(c, a + b)
  {
    ClassesOfConcat(c, a, b);
  }

  /** No class repeats, and none clashes with the column wrapper's own class. */
  lemma GridClassesDistinct(c: Column)
    ensures NoDuplicates(["ug-grid-col-wrapper"] + GridClasses(c))
  {
    var rest := ClassesOf(c, Present(c));
    BreakpointClassesDistinct(c);
    BreakpointClassesNotFixed(c);
    NoDuplicatesConcat([RowItemClass], rest);
    NoDuplicatesConcat(["ug-grid-col-wrapper"], [RowItemClass] + rest);
  }

  lemma BreakpointClassesDistinct(c: Column)
    ensures NoDuplicates(ClassesOf(c, Present(c)))
  {
    var p := Present(c);
    PresentSpec(c);
    var rest := ClassesOf(c, p);
    forall i, j | 0 <= i < j < |rest| ensures rest[i] != rest[j] {
      if rest[i] == rest[j] {
        ClassForInjective(p[i], WidthAt(c, p[i]), p[j], WidthAt(c, p[j]));
      }
    }
  }

  lemma BreakpointClassesNotFixed(c: Column)
    ensures forall t :: t in ClassesOf(c, Present(c)) ==> t != RowItemClass && t != "ug-grid-col-wrapper"
  {
    var p := Present(c);
    var rest := ClassesOf(c, p);
    forall t | t in rest ensures t != RowItemClass && t != "ug-grid-col-wrapper" {
      var k :| 0 <= k < |rest| && rest[k] == t;
      ClassForNotFixed(p[k], WidthAt(c, p[k]));
    }
  }

  /** A breakpoint class is neither the row-item class nor the wrapper class. */
  lemma ClassForNotFixed(bp: Breakpoint, w: Width)
    ensures ClassFor(bp, w) != RowItemClass && ClassFor(bp, w) != "ug-grid-col-wrapper"
  {
    ClassForShape(bp, w);
    assert RowItemClass[8] == 'r';
    assert "ug-grid-col-wrapper"[8] == 'c';
  }

  /** One guarded push of the label is one more reference entry. */
  lemma PartStep(ps: seq<string>, c: Column, bp: Breakpoint)
    ensures PushIfSet(ps, WidthAt(c, bp), Name(bp)) == ps + PartsOf(c, PresentIn(c, [bp]))
  {
    assert [bp][1..] == [];
    if WidthAt(c, bp) == Null {
      assert ps + PartsOf(c, PresentIn(c, [bp])) == ps;
    }
  }

  lemma {:induction false} PartsOfConcat(c: Column, a: seq<Breakpoint>, b: seq<Breakpoint>)
    ensures PartsOf(c, a + b) == PartsOf(c, a) + PartsOf(c, b)
  {
  }

  /**
   * The entries `#formatGridBreakpoints` pushes are the reference reading:
   * one "NAME:width" entry per set breakpoint, in the same order as the
   * classes.
   */
  lemma LabelEntriesParts(c: Column)
    ensures LabelEntries(c) == LabelParts(c)
    ensures |LabelParts(c)| == |GridClasses(c)| - 1
  {
    var p1 := PushIfSet([], c.xs, "XS");
    var p2 := PushIfSet(p1, c.sm, "SM");
    var p3 := PushIfSet(p2, c.md, "MD");
    var p4 := PushIfSet(p3, c.lg, "LG");
    var p5 := PushIfSet(p4, c.xl, "XL");
    var q1 := PresentIn(c, [XS]);
    var q2 := q1 + PresentIn(c, [SM]);
    var q3 := q2 + PresentIn(c, [MD]);
    var q4 := q3 + PresentIn(c, [LG]);
    var q5 := q4 + PresentIn(c, [XL]);
    PresentUnfold(c);
    PartStep([], c, XS);
    assert [] + PartsOf(c, q1) == PartsOf(c, q1);
    PartStep(p1, c, SM);
    PartsOfConcat(c, q1, PresentIn(c, [SM]));
    PartStep(p2, c, MD);
    PartsOfConcat(c, q2, PresentIn(c, [MD]));
    PartStep(p3, c, LG);
    PartsOfConcat(c, q3, PresentIn(c, [LG]));
    PartStep(p4, c, XL);
    PartsOfConcat(c, q4, PresentIn(c, [XL]));
    PartStep(p5, c, XXL);
    PartsOfConcat(c, q5, PresentIn(c, [XXL]));
  }

  /** A label with at least one entry is never the default text. */
  lemma LabelPartsNotDefault(c: Column)
    ensures |LabelParts(c)| > 0 ==> "(" + Join(LabelParts(c), ", ") + ")" != "(Default Penuh)"
  {
    var ps := LabelParts(c);
    if |ps| > 0 {
      var p := Present(c);
      assert ps[0] == Name(p[0]) + ":" + WidthText(WidthAt(c, p[0]));
      LabelNotDefault(ps);
    }
  }

  lemma PresentEmpty(c: Column)
    ensures |Present(c)| == 0 <==> forall bp :: WidthAt(c, bp).Null?
  {
    PresentSpec(c);
    if |Present(c)| > 0 {
      assert Present(c)[0] in Present(c);
    } else {
      forall bp ensures WidthAt(c, bp).Null? {
        assert bp !in Present(c);
      }
    }
  }

  /** A label with an entry starts its entries with a breakpoint name, never with "Default". */
  lemma LabelNotDefault(ps: seq<string>)
    requires |ps| > 0 && |ps[0]| > 0 && ps[0][0] in "XSML"
    ensures "(" + Join(ps, ", ") + ")" != "(Default Penuh)"
  {
    JoinHead(ps, ", ");
    var s := "(" + Join(ps, ", ") + ")";
    assert s[1] == ps[0][0];
    assert "(Default Penuh)"[1] == 'D';
  }
}
