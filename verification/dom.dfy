/**
 * The rendered output: an immutable tree of element nodes, standing in for
 * the browser elements the renderer creates, plus the string and class-list
 * primitives the renderer relies on (`classList.add`, `String.prototype.split`
 * on a single space, `String.prototype.trim`).
 */
module Dom {

  /**
   * One rendered node. `text` is the `textContent` assigned to the element
   * before any child is appended to it, so it reads before `children`.
   * Character data created by `createTextNode` is a node tagged "#text";
   * author markup assigned through `innerHTML` is kept as an opaque node
   * tagged "#markup" holding the markup in `text`.
   */
  datatype Node = Node(
    tag: string,
    classes: seq<string>,
    attrs: map<string, string>,
    style: map<string, string>,
    text: string,
    children: seq<Node>)

  function Element(tag: string, classes: seq<string>, children: seq<Node>): Node {
    Node(tag, classes, map[], map[], "", children)
  }

  function TextElement(tag: string, classes: seq<string>, text: string): Node {
    Node(tag, classes, map[], map[], text, [])
  }

  function TextNode(s: string): Node {
    Node("#text", [], map[], map[], s, [])
  }

  function MarkupNode(html: string): Node {
    Node("#markup", [], map[], map[], html, [])
  }

  predicate NoDuplicates<T(==)>(cs: seq<T>) {
    forall i, j :: 0 <= i < j < |cs| ==> cs[i] != cs[j]
  }

  lemma NoDuplicatesConcat<T>(a: seq<T>, b: seq<T>)
    requires NoDuplicates(a) && NoDuplicates(b)
    requires forall x :: x in a ==> x !in b
    ensures NoDuplicates(a + b)
  {
    forall i, j | 0 <= i < j < |a + b|
      ensures (a + b)[i] != (a + b)[j]
    {
      if j < |a| {
      } else if i >= |a| {
        assert (a + b)[i] == b[i - |a|] && (a + b)[j] == b[j - |a|];
      } else {
        assert (a + b)[i] == a[i] && (a + b)[j] == b[j - |a|];
        assert a[i] in a;
      }
    }
  }

  datatype Option<T> = None | Some(value: T)

  /** The characters `classList.add` refuses inside a token: ASCII white space. */
  predicate IsAsciiSpace(c: char) {
    c == ' ' || c == '\t' || c == '\n' || c == '\U{C}' || c == '\r'
  }

  /** A string with no ASCII white space in it. */
  predicate NoAsciiSpace(s: string) {
    forall k :: 0 <= k < |s| ==> !IsAsciiSpace(s[k])
  }

  /**
   * A token `classList.add` accepts. An empty token raises a `SyntaxError`
   * and one holding ASCII white space an `InvalidCharacterError`.
   */
  predicate ValidToken(t: string) {
    |t| > 0 && NoAsciiSpace(t)
  }

  lemma NoAsciiSpaceConcat(a: string, b: string)
    ensures NoAsciiSpace(a + b) <==> NoAsciiSpace(a) && NoAsciiSpace(b)
  {
    if NoAsciiSpace(a) && NoAsciiSpace(b) {
      forall k | 0 <= k < |a + b| ensures !IsAsciiSpace((a + b)[k]) {
        if k >= |a| {
          assert (a + b)[k] == b[k - |a|];
        }
      }
    }
    if NoAsciiSpace(a + b) {
      forall k | 0 <= k < |a| ensures !IsAsciiSpace(a[k]) {
        assert (a + b)[k] == a[k];
      }
      forall k | 0 <= k < |b| ensures !IsAsciiSpace(b[k]) {
        assert (a + b)[|a| + k] == b[k];
      }
    }
  }

  /**
   * `classList.add(t)` for a computed token: `None` when the call throws,
   * otherwise the class list with `t` added.
   */
  function TryAddClass(cs: seq<string>, t: string): (r: Option<seq<string>>)
    ensures r.Some? <==> ValidToken(t)
    ensures r.Some? ==> r.value == AddClass(cs, t)
  {
    if ValidToken(t) then Some(AddClass(cs, t)) else None
  }

  /** `classList.add(c)`: a token already in the list is not added again. */
  function AddClass(cs: seq<string>, c: string): (r: seq<string>)
    ensures forall t :: t in r <==> t in cs || t == c
    ensures |cs| <= |r| <= |cs| + 1 && r[..|cs|] == cs
    ensures NoDuplicates(cs) ==> NoDuplicates(r)
  {
    if c in cs then cs else cs + [c]
  }

  /** `classList.add(...ts)`: the tokens are added one after another. */
  function AddClasses(cs: seq<string>, ts: seq<string>): (r: seq<string>)
    ensures forall t :: t in r <==> t in cs || t in ts
    ensures NoDuplicates(cs) ==> NoDuplicates(r)
    decreases |ts|
  {
    if |ts| == 0 then cs else AddClasses(AddClass(cs, ts[0]), ts[1..])
  }

  /**
   * `classList.add(...ts)` for computed tokens: `None` when any of them is
   * refused (the call then changes nothing and throws).
   */
  function TryAddClasses(cs: seq<string>, ts: seq<string>): (r: Option<seq<string>>)
    ensures r.Some? <==> forall k :: 0 <= k < |ts| ==> ValidToken(ts[k])
    ensures r.Some? ==> r.value == AddClasses(cs, ts)
  {
    if forall k :: 0 <= k < |ts| ==> ValidToken(ts[k]) then Some(AddClasses(cs, ts)) else None
  }

  /** When nothing repeats, adding tokens just appends them. */
  lemma {:induction false} AddClassesFresh(cs: seq<string>, ts: seq<string>)
    requires NoDuplicates(cs + ts)
    ensures AddClasses(cs, ts) == cs + ts
    decreases |ts|
  {
    if |ts| > 0 {
      assert (cs + ts)[|cs|] == ts[0];
      assert ts[0] !in cs by {
        forall i | 0 <= i < |cs| ensures cs[i] != ts[0] {
          assert (cs + ts)[i] == cs[i];
        }
      }
      assert (cs + [ts[0]]) + ts[1..] == cs + ts;
      AddClassesFresh(cs + [ts[0]], ts[1..]);
    }
  }

  /** `s.split(sep)` for a one-character separator: the pieces between separators. */
  function Split(s: string, sep: char): (r: seq<string>)
    ensures |r| >= 1
    decreases |s|
  {
    if |s| == 0 then [""]
    else
      var rest := Split(s[1..], sep);
      if s[0] == sep then [""] + rest else [[s[0]] + rest[0]] + rest[1..]
  }

  /** `ts.join(sep)`. */
  function Join(ts: seq<string>, sep: string): string
    decreases |ts|
  {
    if |ts| == 0 then "" else if |ts| == 1 then ts[0] else ts[0] + sep + Join(ts[1..], sep)
  }

  /** A class token: no white space anywhere in it. */
  predicate IsToken(t: string) {
    forall k :: 0 <= k < |t| ==> !IsWhitespace(t[k])
  }

  lemma {:induction false} SplitPiece(t: string, rest: string, sep: char)
    requires sep !in t
    ensures Split(t + rest, sep)[0] == t + Split(rest, sep)[0]
    ensures Split(t + rest, sep)[1..] == Split(rest, sep)[1..]
    decreases |t|
  {
    if |t| > 0 {
      assert t[0] != sep;
      var s := t + rest;
      assert s[0] == t[0] && s[1..] == t[1..] + rest;
      assert t[1..] == t[1..] && forall c :: c in t[1..] ==> c in t;
      SplitPiece(t[1..], rest, sep);
      var r := Split(s[1..], sep);
      assert Split(s, sep) == [[t[0]] + r[0]] + r[1..];
      assert [t[0]] + (t[1..] + Split(rest, sep)[0]) == t + Split(rest, sep)[0];
    } else {
      assert t + rest == rest;
    }
  }

  /** Splitting undoes joining pieces that do not contain the separator. */
  lemma {:induction false} SplitJoin(ts: seq<string>, sep: char)
    requires |ts| >= 1
    requires forall k :: 0 <= k < |ts| ==> sep !in ts[k]
    ensures Split(Join(ts, [sep]), sep) == ts
    decreases |ts|
  {
    if |ts| == 1 {
      SplitPiece(ts[0], "", sep);
      assert ts[0] + "" == ts[0];
    } else {
      var rest := Join(ts[1..], [sep]);
      SplitJoin(ts[1..], sep);
      assert Join(ts, [sep]) == ts[0] + ([sep] + rest);
      SplitPiece(ts[0], [sep] + rest, sep);
      assert ([sep] + rest)[1..] == rest;
      assert Split([sep] + rest, sep) == [""] + ts[1..];
      assert ts[0] + "" == ts[0];
      assert [ts[0]] + ts[1..] == ts;
    }
  }

  lemma {:induction false} JoinSnoc(ts: seq<string>, t: string, sep: string)
    requires |ts| >= 1
    ensures Join(ts + [t], sep) == Join(ts, sep) + sep + t
    decreases |ts|
  {
    if |ts| == 1 {
      assert (ts + [t])[1..] == [t];
    } else {
      assert (ts + [t])[1..] == ts[1..] + [t];
      JoinSnoc(ts[1..], t, sep);
    }
  }

  /** A join begins with its first piece. */
  lemma {:induction false} JoinHead(ts: seq<string>, sep: string)
    requires |ts| >= 1
    ensures |Join(ts, sep)| >= |ts[0]|
    ensures Join(ts, sep)[..|ts[0]|] == ts[0]
  {
    if |ts| > 1 {
      assert Join(ts, sep) == ts[0] + (sep + Join(ts[1..], sep));
    }
  }

  /** The characters `String.prototype.trim` removes: white space and line terminators. */
  predicate IsWhitespace(c: char) {
    || c == ' ' || c == '\t' || c == '\n' || c == '\r' || c == '\U{B}' || c == '\U{C}'
    || c == '\U{A0}' || c == '\U{1680}' || ('\U{2000}' <= c <= '\U{200A}')
    || c == '\U{2028}' || c == '\U{2029}' || c == '\U{202F}' || c == '\U{205F}'
    || c == '\U{3000}' || c == '\U{FEFF}'
  }

  function TrimStart(s: string): (r: string)
    ensures |r| <= |s| && r == s[|s| - |r|..]
    ensures |r| > 0 ==> !IsWhitespace(r[0])
    decreases |s|
  {
    if |s| > 0 && IsWhitespace(s[0]) then TrimStart(s[1..]) else s
  }

  function TrimEnd(s: string): (r: string)
    ensures |r| <= |s| && r == s[..|r|]
    ensures |r| > 0 ==> !IsWhitespace(r[|r| - 1])
    decreases |s|
  {
    if |s| > 0 && IsWhitespace(s[|s| - 1]) then TrimEnd(s[..|s| - 1]) else s
  }

  /** `s.trim()`. */
  function Trim(s: string): (r: string)
    ensures |s| > 0 && !IsWhitespace(s[0]) && !IsWhitespace(s[|s| - 1]) ==> r == s
  {
    TrimEnd(TrimStart(s))
  }
}
