# A verified model of the SQL parser's tree printer

The SQL parser turns query text into an ANTLR `CommonTree` and offers
`TreePrinter.stringTree` to show that tree as text. The output looks like an
S-expression. A childless node prints as its text. A node with children prints
as `(`, its text, each child, then `)`. Each child is preceded by one space when
no child of the node has children of its own. Otherwise each child goes on a
new line, indented by three spaces per level of depth. Printing starts at
depth 1.

This project models that printer in Dafny:

- `trees.dfy` (module `Trees`): the tree. `Node(text, isNil, children)` stands
  for a `CommonTree`. `text` is its `toString()` result, treated as an opaque
  string. `isNil` is `isNil()`. `children` is the ordered child list.
- `treeprinter.dfy` (module `TreePrinter`): the pure specification `Render`,
  and the four Java methods as imperative Dafny. A string variable stands for
  each `StringBuilder`. The loops are the Java loops. Each method is proved to
  compute what the specification says.
- `properties.dfy` (module `TreePrinterProperties`): lemmas about `Render`.
  Through the methods' postconditions they also hold for the Java methods.

Two consequences of the code are worth stating:

- There is no leaf-count threshold. A node goes multi-line exactly when at
  least one child has children of its own, so a node with three leaf children
  prints inline (`ThreeLeavesInline`).
- A nil node with children prints as `""`, not as its children's renderings
  (`NilPrintsNothing`).

The code checks the child count before the nil flag. So a childless nil node
prints its text (`CommonTree` gives `"nil"` for such a node).

`repeatString(s, n)` first calls `new StringBuilder(s.length() * n)`. That
product is a 32-bit Java `int`, and `s.length()` counts UTF-16 code units (two
for a character above U+FFFF); the model computes it as `Utf16Length`. When the
wrapped product is negative, the constructor throws
`NegativeArraySizeException`. When the product does not wrap, this happens
exactly for a negative `n` with a non-empty `s`. It also happens when the
product overflows to a negative value, for example
`repeatString("   ", 800000000)`. For a negative `n`, a product that wraps to
a non-negative value (like `2 * -2^31`, which gives 0) does not throw, and the
loop never runs (`CapacityWraps`). For a positive `n` whose product wraps to a
non-negative value, the constructor succeeds but the append loop ends in
`OutOfMemoryError` (see "Left out").
`RepeatString` returns the exception as the `NegativeArraySizeException` case
of `RepeatResult`. So for a negative `n` whose product does not wrap, the
method returns `""` only when `s` is empty. The printer only calls
`repeatString` with a depth of at least 1, so this case never comes up from
`stringTree`.

## Model

| member | source | states |
|---|---|---|
| TreePrinter.RepeatString | src/main/java/cafedb/sqlparser/TreePrinter.java:51-58 | Throws `NegativeArraySizeException` exactly when the 32-bit capacity (UTF-16 length of `s` times `n`) wraps to a negative value. So a non-negative `n` whose product fits in an int succeeds, and a negative `n` with non-empty `s` throws when the product does not wrap. On success the result is `s` written `max(n, 0)` times, and it is `""` when `n <= 0`. The `OutOfMemoryError` of an over-long result is not modelled (see "Left out"). |
| TreePrinter.IsLeaf | src/main/java/cafedb/sqlparser/TreePrinter.java:41-49 | The early-exit scan returns true iff no child has a positive child count. It returns false iff some child has children. It is true for an empty child list. |
| TreePrinter.DoStringTree | src/main/java/cafedb/sqlparser/TreePrinter.java:15-38 | The recursive builder, with its append loop over the children, produces exactly `Render(t, depth)`. |
| TreePrinter.StringTree | src/main/java/cafedb/sqlparser/TreePrinter.java:9-12 | The entry point produces the depth-1 rendering `Render(t, 1)`. |
| TreePrinterProperties.RepeatLength | src/main/java/cafedb/sqlparser/TreePrinter.java:53-57 | `s` repeated `n` times has length `n` times the length of `s`. |
| TreePrinterProperties.RepeatBlock | src/main/java/cafedb/sqlparser/TreePrinter.java:54-56 | For each `k < n`, the `k`-th block, as long as `s`, of the repetition is `s` itself. So the result is `s` concatenated `n` times. |
| TreePrinterProperties.RepeatChars | src/main/java/cafedb/sqlparser/TreePrinter.java:54-56 | Every character of a repetition of `s` occurs in `s`. |
| TreePrinterProperties.IndentIsSpaces | src/main/java/cafedb/sqlparser/TreePrinter.java:29 | The indentation appended before a child contains only spaces. |
| TreePrinterProperties.ChildlessPrintsText | src/main/java/cafedb/sqlparser/TreePrinter.java:17-19 | A node with no children prints as exactly its text, at any depth, nil or not. |
| TreePrinterProperties.NilPrintsNothing | src/main/java/cafedb/sqlparser/TreePrinter.java:20-22 | Any nil node with at least one child prints as `""` at any depth. The output is the same for all such nodes, so neither the children nor the text affect it. |
| TreePrinterProperties.ChildrenInOrder | src/main/java/cafedb/sqlparser/TreePrinter.java:23-37 | A non-nil node with children prints as `"(" + text`, then each child's rendering at `depth + 1`, in stored order and each preceded by the node's separator, then `")"`. This is proved against the independent front-to-back definition `Prefixed`. |
| TreePrinterProperties.RenderOpenPrefixed | src/main/java/cafedb/sqlparser/TreePrinter.java:23-35 | After `k` rounds of the child loop, the builder holds `"(" + text` followed by the first `k` children's renderings at `depth + 1`, each preceded by the separator. |
| TreePrinterProperties.Bracketed | src/main/java/cafedb/sqlparser/TreePrinter.java:23-37 | For a non-nil node with children, the output starts with `"(" + text` and ends with `")"`. |
| TreePrinterProperties.InlineLayout | src/main/java/cafedb/sqlparser/TreePrinter.java:27-33 | When every child is childless, each child's text is preceded by exactly one space: `(text c1 c2 ...)`. |
| TreePrinterProperties.MultiLineLayout | src/main/java/cafedb/sqlparser/TreePrinter.java:27-30 | When some child has children, each child's rendering is preceded by `"\n"` and `"   "` written `depth` times. |
| TreePrinterProperties.LayoutRule | src/main/java/cafedb/sqlparser/TreePrinter.java:27-33 | The character after `"(" + text` is a line break iff some child has children, and a space iff all children are childless. The layout does not depend on a leaf count. |
| TreePrinterProperties.FlatTreeOneLine | src/main/java/cafedb/sqlparser/TreePrinter.java:27-33 | Take a tree of height one whose texts contain no line break. It prints as `(text c1 c2 ...)` and the output contains no line break. |
| TreePrinterProperties.PrefixedChars | src/main/java/cafedb/sqlparser/TreePrinter.java:26-35 | Every character of the joined child output comes from the separator or from one of the parts (the children's renderings). |
| TreePrinterProperties.CapacityWraps | src/main/java/cafedb/sqlparser/TreePrinter.java:53 | A character above U+FFFF has UTF-16 length 2, so the capacity for it repeated 2^30 times wraps negative; the capacity for `"ab"` repeated -2^31 times wraps to 0. |
| TreePrinterProperties.ThreeLeavesInline | src/main/java/cafedb/sqlparser/TreePrinter.java:26-36 | A root with three leaf children prints inline as `(root a b c)`, whatever the texts are. |
| TreePrinterProperties.TwoLeavesInline | src/main/java/cafedb/sqlparser/TreePrinter.java:26-36 | A node with two leaf children prints inline as `(x a b)` at any depth. |
| TreePrinterProperties.RootIndentsOnce | src/main/java/cafedb/sqlparser/TreePrinter.java:9-12 | From depth 1, a multi-line root puts `"\n"` and three spaces before each child. Its inline child, rendered at depth 2, keeps its own layout: `(root\n   (x a b)\n   u)`. |
| TreePrinterProperties.StatementListRoots | src/main/java/cafedb/sqlparser/TreePrinter.java:17-22 | A childless nil root prints its own text. A nil root with two statement children prints `""`, whatever the statements are. |

## Left out

- TreePrinter.DoStringTree: requires `IndentFits`. It bounds the depth of every printed multi-line node by `Integer.MAX_VALUE / 3`, and the depth of every printed internal node below `Integer.MAX_VALUE`, so that `3 * depth` and `depth + 1` fit in a Java int. Beyond those bounds the Java arithmetic wraps: for some depths the capacity turns negative and `repeatString` throws, for others (such as 1431655766, capacity 2) it stays non-negative, the constructor succeeds, but the append loop ends in `OutOfMemoryError`. The model covers neither; a tree that deep would overflow the Java call stack long before.
- TreePrinter.StringTree: has the same `IndentFits` requirement, starting at depth 1.
- `depth` is an unbounded `nat` instead of a Java `int`. Within the `IndentFits` bounds the two agree.
- TreePrinter.RepeatString: Java's `OutOfMemoryError`, thrown when the result (of `repeatString` or of the whole printer) would exceed the maximum string length, is not modelled; the model returns the full unbounded string. Neither is `StackOverflowError` on deep trees.
- `isLeaf` on a `CommonTree` whose child list was never created would hit a null list. Here an absent child list and an empty one are the same `[]`. The printer only calls `isLeaf` on nodes with children.
- How `CommonTree.toString()` builds a node's text (token text, `"nil"` for nil nodes) is not modelled. The text is an opaque field.
- `ParseDriver` (`parseQuery`, `parseQueryList`, `readStream`, the case-folding `ANTLRNoCaseStringStream.LA`) is not modelled. It drives the ANTLR-generated lexer and parser, which are not part of this model, and reads input streams. The case folding relies on Unicode `Character.toUpperCase`.
- `Print`, `PrintQuery` and both `Test` classes are not modelled. They are command-line entry points that do file and console I/O, regular-expression rewriting and `System.exit`.
