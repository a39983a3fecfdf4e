/**
 * The diagnostic tree: a caption and an ordered list of children. The source
 * grows it in place; here each `eval` returns the children it appends to the
 * node it was given, so a finished tree is a plain value.
 */
module Diagnostics {
  import opened Ir

  datatype Label =
    | Text(s: string)
    | IntValue(n: int)
    | FloatValue(text: string)
    | ValueOf(r: EvalResult)

  datatype Tree = Node(caption: Label, children: seq<Tree>)

  function Leaf(s: string): Tree
  {
    Node(Text(s), [])
  }

  function Labelled(s: string, kids: seq<Tree>): Tree
  {
    Node(Text(s), kids)
  }

  function Expr(kids: seq<Tree>): Tree
  {
    Labelled("expression", kids)
  }

  /** The chain Program/Block builds: statement i's children under a
      `statement_full` node, and every statement but the last followed by a
      `caption` node that holds the rest. `n` is the number of statements, so
      a run stopped by an error still shows the empty `caption` node that was
      appended before the failing statement ran. */
  function Nest(caption: string, parts: seq<seq<Tree>>, n: nat): seq<Tree>
    decreases |parts|
  {
    if |parts| == 0 then []
    else if n <= 1 then [Labelled("statement_full", parts[0])]
    else [Labelled("statement_full", parts[0]), Labelled(caption, Nest(caption, parts[1..], n - 1))]
  }

  /** Reads the statements' children back off such a chain. */
  function SpineParts(caption: string, kids: seq<Tree>): seq<seq<Tree>>
    decreases kids
  {
    if |kids| == 1 && kids[0].caption == Text("statement_full") then [kids[0].children]
    else if |kids| == 2 && kids[0].caption == Text("statement_full") && kids[1].caption == Text(caption)
    then [kids[0].children] + SpineParts(caption, kids[1].children)
    else []
  }

  /** How many `caption` nodes hang one under the other along the chain. */
  function NestDepth(caption: string, kids: seq<Tree>): nat
    decreases kids
  {
    if |kids| == 2 && kids[1].caption == Text(caption) then 1 + NestDepth(caption, kids[1].children)
    else 0
  }

  /** A completed chain of n statements holds exactly the n statements'
      children, in order, and n - 1 nested `caption` nodes. */
  lemma {:induction false} NestRoundTrip(caption: string, parts: seq<seq<Tree>>)
    requires |parts| >= 1 && caption != "statement_full"
    ensures SpineParts(caption, Nest(caption, parts, |parts|)) == parts
    ensures NestDepth(caption, Nest(caption, parts, |parts|)) == |parts| - 1
  {
    if |parts| > 1 {
      NestRoundTrip(caption, parts[1..]);
      assert parts == [parts[0]] + parts[1..];
    }
  }
}
