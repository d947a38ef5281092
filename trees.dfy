/**
 * The abstract syntax tree the printer reads: an ANTLR CommonTree reduced to
 * what the printer looks at. `text` stands for the node's toString() text,
 * `isNil` for isNil(), and `children` for the ordered child list.
 */
module Trees {

  datatype Node = Node(text: string, isNil: bool, children: seq<Node>)

  /** A childless node with the given text. */
  function Leaf(text: string): (t: Node)
  {
    Node(text, false, [])
  }

  /** No child of `t` has children of its own (vacuously true for no children). */
  predicate ChildrenAreLeaves(t: Node)
  {
    forall i :: 0 <= i < |t.children| ==> |t.children[i].children| == 0
  }

  /** The texts of `cs`, in order. */
  function Labels(cs: seq<Node>): (r: seq<string>)
  {
    seq(|cs|, i requires 0 <= i < |cs| => cs[i].text)
  }

  /** No text anywhere in `t` contains a line break. */
  predicate NoNewlineLabels(t: Node)
    decreases t
  {
    '\n' !in t.text &&
    forall i :: 0 <= i < |t.children| ==> NoNewlineLabels(t.children[i])
  }
}
