/**
 * The tree printer: a pure specification of the rendering (Render) and the
 * imperative methods that build the same text the way the Java class does,
 * with a string standing in for each StringBuilder.
 */
module TreePrinter {
  import opened Trees

  /** Java's Integer.MAX_VALUE. */
  const MaxInt: int := 0x7fff_ffff

  /** The indentation unit appended once per level of depth. */
  const Indent: string := "   "

  /** Deepest level at which `|Indent| * depth` still fits in a Java int. */
  const MaxIndentDepth: nat := MaxInt / 3

  predicate IsInt32(x: int)
  {
    -MaxInt - 1 <= x <= MaxInt
  }

  /** The value of `x` after Java's two's-complement 32-bit wrap-around. */
  function Wrap32(x: int): (r: int)
    ensures IsInt32(r)
    ensures IsInt32(x) ==> r == x
  {
    (x + 0x8000_0000) % 0x1_0000_0000 - 0x8000_0000
  }

  // ---------------------------------------------------------------------
  // Specification functions
  // ---------------------------------------------------------------------

  /** `s` written `n` times in a row. */
  function Repeat(s: string, n: nat): (r: string)
  {
    if n == 0 then "" else Repeat(s, n - 1) + s
  }

  /** What precedes each child's text: a space in inline layout, otherwise
      a line break and `depth` indentation units. */
  function Separator(t: Node, depth: nat): (r: string)
  {
    if ChildrenAreLeaves(t) then " " else "\n" + Repeat(Indent, depth)
  }

  /** The text of `t` printed at indentation depth `depth`. */
  function Render(t: Node, depth: nat): (r: string)
    decreases t, |t.children| + 1
  {
    if |t.children| == 0 then t.text
    else if t.isNil then ""
    else RenderOpen(t, |t.children|, depth) + ")"
  }

  /** The text built for the non-nil node `t` once its first `k` children
      are written: "(" and the node's text, then each child after its
      separator. */
  function RenderOpen(t: Node, k: nat, depth: nat): (r: string)
    requires k <= |t.children|
    decreases t, k
  {
    if k == 0 then "(" + t.text
    else RenderOpen(t, k - 1, depth) + Separator(t, depth) + Render(t.children[k - 1], depth + 1)
  }

  /** The printer stays within Java int arithmetic on `t` at `depth`: every
      laid-out internal node hands its children a depth that fits in an int,
      and each multi-line one asks for an indentation whose length fits too. */
  predicate IndentFits(t: Node, depth: nat)
    decreases t
  {
    |t.children| == 0 || t.isNil ||
    (depth < MaxInt &&
     (ChildrenAreLeaves(t) || depth <= MaxIndentDepth) &&
     forall i :: 0 <= i < |t.children| ==> IndentFits(t.children[i], depth + 1))
  }

  /** Java's String.length(): the number of UTF-16 code units, two for each
      character above U+FFFF. */
  function Utf16Length(s: string): (r: nat)
    ensures |s| <= r <= 2 * |s|
    ensures (forall i :: 0 <= i < |s| ==> s[i] as int <= 0xFFFF) ==> r == |s|
  {
    if s == [] then 0
    else (if s[0] as int > 0xFFFF then 2 else 1) + Utf16Length(s[1..])
  }

  // ---------------------------------------------------------------------
  // The Java methods
  // ---------------------------------------------------------------------

  /** Outcome of repeatString: the text, or the exception the StringBuilder
      constructor throws for a negative capacity. */
  datatype RepeatResult = Repeated(str: string) | NegativeArraySizeException

  /** repeatString(s, n): preallocates `s.length() * n` (a 32-bit product of
      the UTF-16 length), then appends `s` in a counter loop. */
  method RepeatString(s: string, n: int) returns (r: RepeatResult)
    requires Utf16Length(s) <= MaxInt && IsInt32(n)
    ensures r.NegativeArraySizeException? <==> Wrap32(Utf16Length(s) * n) < 0
    ensures 0 <= n && Utf16Length(s) * n <= MaxInt ==> r.Repeated?
    ensures n < 0 && |s| > 0 && IsInt32(Utf16Length(s) * n) ==> r.NegativeArraySizeException?
    ensures r.Repeated? ==> r.str == Repeat(s, if n < 0 then 0 else n)
    ensures r.Repeated? && n <= 0 ==> r.str == ""
  {
    var capacity := Wrap32(Utf16Length(s) * n);
    if capacity < 0 {
      return NegativeArraySizeException;
    }
    var sb := "";
    var i := 0;
    while i < n
      invariant 0 <= i <= (if n < 0 then 0 else n)
      invariant sb == Repeat(s, i)
    {
      sb := sb + s;
      i := i + 1;
    }
    return Repeated(sb);
  }

  /** isLeaf(t): scans the children and stops at the first one that has
      children of its own. */
  method IsLeaf(t: Node) returns (b: bool)
    ensures b <==> ChildrenAreLeaves(t)
    ensures !b <==> exists j :: 0 <= j < |t.children| && |t.children[j].children| > 0
  {
    for i := 0 to |t.children|
      invariant forall j :: 0 <= j < i ==> |t.children[j].children| == 0
    {
      if |t.children[i].children| > 0 {
        return false;
      }
    }
    return true;
  }

  /** doStringTree(t, depth). */
  method DoStringTree(t: Node, depth: nat) returns (s: string)
    requires IndentFits(t, depth)
    ensures s == Render(t, depth)
    decreases t
  {
    if |t.children| == 0 {
      return t.text;
    }
    if t.isNil {
      return "";
    }
    var sb := "(";
    sb := sb + t.text;
    for i := 0 to |t.children|
      invariant sb == RenderOpen(t, i, depth)
    {
      var leaf := IsLeaf(t);
      if !leaf {
        sb := sb + "\n";
        assert Utf16Length(Indent) * depth <= MaxInt;
        var pad := RepeatString(Indent, depth);
        sb := sb + pad.str;
      } else {
        sb := sb + " ";
      }
      assert sb == RenderOpen(t, i, depth) + Separator(t, depth);
      var child := DoStringTree(t.children[i], depth + 1);
      sb := sb + child;
    }
    sb := sb + ")";
    return sb;
  }

  /** stringTree(t): the printer's entry point, starting at depth 1. */
  method StringTree(t: Node) returns (s: string)
    requires IndentFits(t, 1)
    ensures s == Render(t, 1)
  {
    s := DoStringTree(t, 1);
  }
}
