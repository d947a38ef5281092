/**
 * What the printer promises, proved about the specification Render (and so,
 * through DoStringTree's postcondition, about the Java methods).
 */
module TreePrinterProperties {
  import opened Trees
  import opened TreePrinter

  // ---------------------------------------------------------------------
  // Reference definitions
  // ---------------------------------------------------------------------

  /** Each part of `parts`, in order, preceded by `sep`. */
  function Prefixed(sep: string, parts: seq<string>): (r: string)
  {
    if parts == [] then "" else sep + parts[0] + Prefixed(sep, parts[1..])
  }

  /** The renderings of `cs`, each at depth `depth`, in order. */
  function Rendered(cs: seq<Node>, depth: nat): (r: seq<string>)
  {
    seq(|cs|, i requires 0 <= i < |cs| => Render(cs[i], depth))
  }

  // ---------------------------------------------------------------------
  // repeatString
  // ---------------------------------------------------------------------

  lemma {:induction false} RepeatLength(s: string, n: nat)
    ensures |Repeat(s, n)| == |s| * n
  {
    if n > 0 {
      RepeatLength(s, n - 1);
    }
  }

  /** Block `k` of `Repeat(s, n)` is `s` itself. */
  lemma {:induction false} RepeatBlock(s: string, n: nat, k: nat)
    requires k < n
    ensures |Repeat(s, n)| == |s| * n
    ensures Repeat(s, n)[|s| * k .. |s| * (k + 1)] == s
  {
    RepeatLength(s, n);
    RepeatLength(s, n - 1);
    var prefix := Repeat(s, n - 1);
    assert Repeat(s, n) == prefix + s;
    if k < n - 1 {
      RepeatBlock(s, n - 1, k);
      assert |s| * (k + 1) <= |s| * (n - 1) by {
        MulMono(|s|, k + 1, n - 1);
      }
      assert Repeat(s, n)[|s| * k .. |s| * (k + 1)] == prefix[|s| * k .. |s| * (k + 1)];
    } else {
      assert |s| * k == |prefix|;
      assert |s| * (k + 1) == |prefix| + |s|;
    }
  }

  lemma MulMono(a: nat, b: nat, c: nat)
    requires b <= c
    ensures a * b <= a * c
  {
  }

  /** The capacity repeatString asks for is a 32-bit product of UTF-16
      lengths: a character above U+FFFF counts twice, so two times 2^30
      wraps negative (the constructor throws), and a product that wraps
      past zero, like 2 times -2^31, gives capacity 0 (nothing throws). */
  lemma CapacityWraps()
    ensures Utf16Length("\U{1F600}") == 2
    ensures Wrap32(Utf16Length("\U{1F600}") * 0x4000_0000) < 0
    ensures Wrap32(Utf16Length("ab") * -0x8000_0000) == 0
  {
    assert Utf16Length("\U{1F600}") == 2;
    assert Utf16Length("ab") == 2;
  }

  /** Every character of `Repeat(s, n)` comes from `s`. */
  lemma {:induction false} RepeatChars(s: string, n: nat, c: char)
    requires c in Repeat(s, n)
    ensures c in s
  {
    if n > 0 {
      if c !in s {
        RepeatChars(s, n - 1, c);
      }
    }
  }

  // ---------------------------------------------------------------------
  // doStringTree: the three cases
  // ---------------------------------------------------------------------

  /** A childless node prints as its text, at any depth, nil or not. */
  lemma ChildlessPrintsText(t: Node, depth: nat)
    requires |t.children| == 0
    ensures Render(t, depth) == t.text
  {
  }

  /** A nil node with children prints as nothing, whatever its text and
      children: none of them influence the output. */
  lemma NilPrintsNothing(t: Node, u: Node, depth: nat, depth': nat)
    requires t.isNil && |t.children| > 0
    requires u.isNil && |u.children| > 0
    ensures Render(t, depth) == "" == Render(u, depth')
  {
  }

  /** After `k` iterations the builder holds "(", the text, and the first
      `k` children's renderings, each after the separator. */
  lemma {:induction false} RenderOpenPrefixed(t: Node, k: nat, depth: nat)
    requires k <= |t.children|
    ensures RenderOpen(t, k, depth) ==
      "(" + t.text + Prefixed(Separator(t, depth), Rendered(t.children[..k], depth + 1))
  {
    if k > 0 {
      RenderOpenPrefixed(t, k - 1, depth);
      var sep := Separator(t, depth);
      var before := Rendered(t.children[..k - 1], depth + 1);
      var last := Render(t.children[k - 1], depth + 1);
      RenderedSnoc(t.children, k, depth + 1);
      PrefixedSnoc(sep, before, last);
      assert RenderOpen(t, k, depth) == RenderOpen(t, k - 1, depth) + sep + last;
    }
  }

  lemma RenderedSnoc(cs: seq<Node>, k: nat, depth: nat)
    requires 0 < k <= |cs|
    ensures Rendered(cs[..k], depth) == Rendered(cs[..k - 1], depth) + [Render(cs[k - 1], depth)]
  {
  }

  lemma {:induction false} PrefixedSnoc(sep: string, parts: seq<string>, p: string)
    ensures Prefixed(sep, parts + [p]) == Prefixed(sep, parts) + sep + p
  {
    if parts == [] {
      assert parts + [p] == [p];
    } else {
      assert (parts + [p])[1..] == parts[1..] + [p];
      PrefixedSnoc(sep, parts[1..], p);
    }
  }

  /** A non-nil node with children prints as "(" and its text, then every
      child in stored order, each rendered one level deeper and preceded by
      the node's separator, then ")". */
  lemma ChildrenInOrder(t: Node, depth: nat)
    requires !t.isNil && |t.children| > 0
    ensures Render(t, depth) ==
      "(" + t.text + Prefixed(Separator(t, depth), Rendered(t.children, depth + 1)) + ")"
  {
    RenderOpenPrefixed(t, |t.children|, depth);
    assert t.children[..|t.children|] == t.children;
  }

  /** The output of a non-nil node with children opens with "(" and the
      node's text and closes with ")". */
  lemma Bracketed(t: Node, depth: nat)
    requires !t.isNil && |t.children| > 0
    ensures |Render(t, depth)| >= |t.text| + 2
    ensures Render(t, depth)[..|t.text| + 1] == "(" + t.text
    ensures Render(t, depth)[|Render(t, depth)| - 1] == ')'
  {
    ChildrenInOrder(t, depth);
    var body := Prefixed(Separator(t, depth), Rendered(t.children, depth + 1));
    assert Render(t, depth) == ("(" + t.text) + body + ")";
  }

  // ---------------------------------------------------------------------
  // The layout rule
  // ---------------------------------------------------------------------

  /** When no child has children, each child follows a single space. */
  lemma InlineLayout(t: Node, depth: nat)
    requires !t.isNil && |t.children| > 0 && ChildrenAreLeaves(t)
    ensures Render(t, depth) == "(" + t.text + Prefixed(" ", Labels(t.children)) + ")"
  {
    ChildrenInOrder(t, depth);
    assert Rendered(t.children, depth + 1) == Labels(t.children);
  }

  /** When some child has children, each child follows a line break and
      `depth` indentation units. */
  lemma MultiLineLayout(t: Node, depth: nat)
    requires !t.isNil && exists j :: 0 <= j < |t.children| && |t.children[j].children| > 0
    ensures Render(t, depth) ==
      "(" + t.text + Prefixed("\n" + Repeat(Indent, depth), Rendered(t.children, depth + 1)) + ")"
  {
    ChildrenInOrder(t, depth);
  }

  /** The character right after "(" and the text is a line break exactly
      when some child has children of its own, and a space otherwise. */
  lemma LayoutRule(t: Node, depth: nat)
    requires !t.isNil && |t.children| > 0
    ensures |Render(t, depth)| > |t.text| + 1
    ensures Render(t, depth)[|t.text| + 1] == '\n' <==>
      exists j :: 0 <= j < |t.children| && |t.children[j].children| > 0
    ensures Render(t, depth)[|t.text| + 1] == ' ' <==> ChildrenAreLeaves(t)
  {
    ChildrenInOrder(t, depth);
    var parts := Rendered(t.children, depth + 1);
    var body := Prefixed(Separator(t, depth), parts);
    assert body == Separator(t, depth) + parts[0] + Prefixed(Separator(t, depth), parts[1..]);
    assert Render(t, depth) == ("(" + t.text) + body + ")";
    assert Render(t, depth)[|t.text| + 1] == Separator(t, depth)[0];
  }

  /** Every character of a separated list comes from the separator or from
      one of the parts. */
  lemma {:induction false} PrefixedChars(sep: string, parts: seq<string>, c: char)
    requires c in Prefixed(sep, parts)
    ensures c in sep || exists i :: 0 <= i < |parts| && c in parts[i]
  {
    if parts != [] {
      if c !in sep && c !in parts[0] {
        PrefixedChars(sep, parts[1..], c);
        var i :| 0 <= i < |parts[1..]| && c in parts[1..][i];
        assert c in parts[i + 1];
      }
    }
  }

  /** A tree of height at most one whose texts hold no line break prints on
      a single line as "(text c1 c2 ...)". */
  lemma FlatTreeOneLine(t: Node, depth: nat)
    requires !t.isNil && |t.children| > 0 && ChildrenAreLeaves(t)
    requires NoNewlineLabels(t)
    ensures Render(t, depth) == "(" + t.text + Prefixed(" ", Labels(t.children)) + ")"
    ensures '\n' !in Render(t, depth)
  {
    InlineLayout(t, depth);
    var inner := Prefixed(" ", Labels(t.children));
    forall i | 0 <= i < |t.children|
      ensures '\n' !in Labels(t.children)[i]
    {
      assert NoNewlineLabels(t.children[i]);
    }
    if '\n' in inner {
      PrefixedChars(" ", Labels(t.children), '\n');
      assert false;
    }
    assert Render(t, depth) == "(" + t.text + inner + ")";
  }

  /** Indentation is spaces only: line breaks in the output come from the
      layout or from the texts. */
  lemma IndentIsSpaces(depth: nat, c: char)
    requires c in Repeat(Indent, depth)
    ensures c == ' '
  {
    RepeatChars(Indent, depth, c);
  }

  // ---------------------------------------------------------------------
  // Concrete trees
  // ---------------------------------------------------------------------

  /** Three childless children print inline: the layout does not depend on
      how many leaves a node has. */
  lemma ThreeLeavesInline(root: string, a: string, b: string, c: string)
    ensures Render(Node(root, false, [Leaf(a), Leaf(b), Leaf(c)]), 1) == "(" + root + " " + a + " " + b + " " + c + ")"
  {
    var t := Node(root, false, [Leaf(a), Leaf(b), Leaf(c)]);
    assert ChildrenAreLeaves(t);
    InlineLayout(t, 1);
    var labels := Labels(t.children);
    assert labels == [a, b, c];
    assert Prefixed(" ", labels[2..]) == " " + c;
    assert Prefixed(" ", labels[1..]) == " " + b + " " + c;
  }

  /** A node with two childless children prints inline at any depth. */
  lemma TwoLeavesInline(x: string, a: string, b: string, depth: nat)
    ensures Render(Node(x, false, [Leaf(a), Leaf(b)]), depth) == "(" + x + " " + a + " " + b + ")"
  {
    var t := Node(x, false, [Leaf(a), Leaf(b)]);
    assert ChildrenAreLeaves(t);
    InlineLayout(t, depth);
    assert Labels(t.children) == [a, b];
    assert Prefixed(" ", [b]) == " " + b;
  }

  /** At the root (depth 1) a multi-line node indents each child by one
      unit; its inline child keeps its own layout. */
  lemma RootIndentsOnce(root: string, x: string, a: string, b: string, u: string)
    ensures Render(Node(root, false, [Node(x, false, [Leaf(a), Leaf(b)]), Leaf(u)]), 1)
      == "(" + root + "\n   " + "(" + x + " " + a + " " + b + ")" + "\n   " + u + ")"
  {
    var inner := Node(x, false, [Leaf(a), Leaf(b)]);
    var t := Node(root, false, [inner, Leaf(u)]);
    TwoLeavesInline(x, a, b, 2);
    assert |t.children[0].children| > 0;
    MultiLineLayout(t, 1);
    var sep := "\n" + Repeat(Indent, 1);
    assert sep == "\n   ";
    var parts := Rendered(t.children, 2);
    assert parts == [Render(inner, 2), u];
    assert Prefixed(sep, parts[1..]) == sep + u;
  }

  /** A nil root with no children prints its own text; with two statement
      children it prints nothing. */
  lemma StatementListRoots(x: string, s1: Node, s2: Node)
    ensures Render(Node(x, true, []), 1) == x
    ensures Render(Node(x, true, [s1, s2]), 1) == ""
  {
  }
}
