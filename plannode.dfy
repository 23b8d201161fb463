/**
 * The small plan tree of plannode.go and its text view: every node's type
 * on a line of its own, parent before children, children in order.
 */
module PlanViews {

  datatype PlanNode = PlanNode(nodeType: string, plans: seq<PlanNode>, planRows: int, actualRows: int)

  /** `View`: the node's type and a newline, then the views of its children in order. */
  function View(node: PlanNode): string
    decreases node, 1
  {
    node.nodeType + "\n" + ChildrenView(node, 0)
  }

  /** The views of `node.plans[i..]`, one after the other. */
  function ChildrenView(node: PlanNode, i: nat): string
    requires i <= |node.plans|
    decreases node, 0, |node.plans| - i
  {
    if i == |node.plans| then "" else View(node.plans[i]) + ChildrenView(node, i + 1)
  }

  /** The node types of the tree in pre-order: the reference for what `View` lists. */
  function Types(node: PlanNode): seq<string>
    decreases node, 1
  {
    [node.nodeType] + ChildrenTypes(node, 0)
  }

  function ChildrenTypes(node: PlanNode, i: nat): seq<string>
    requires i <= |node.plans|
    decreases node, 0, |node.plans| - i
  {
    if i == |node.plans| then [] else Types(node.plans[i]) + ChildrenTypes(node, i + 1)
  }

  /** The number of nodes of the tree. */
  function Size(node: PlanNode): nat
    decreases node, 1
  {
    1 + ChildrenSize(node, 0)
  }

  function ChildrenSize(node: PlanNode, i: nat): nat
    requires i <= |node.plans|
    decreases node, 0, |node.plans| - i
  {
    if i == |node.plans| then 0 else Size(node.plans[i]) + ChildrenSize(node, i + 1)
  }

  /** Each text followed by a newline. */
  function Lines(texts: seq<string>): string
    decreases |texts|
  {
    if texts == [] then "" else texts[0] + "\n" + Lines(texts[1..])
  }

  /** How often `c` occurs in `s`. */
  function Occurrences(s: string, c: char): nat
    decreases |s|
  {
    if s == [] then 0 else (if s[0] == c then 1 else 0) + Occurrences(s[1..], c)
  }

  lemma {:induction false} LinesAppend(a: seq<string>, b: seq<string>)
    ensures Lines(a + b) == Lines(a) + Lines(b)
    decreases |a|
  {
    if a == [] {
      assert a + b == b;
    } else {
      assert (a + b)[1..] == a[1..] + b;
      LinesAppend(a[1..], b);
    }
  }

  lemma {:induction false} OccurrencesAppend(s: string, t: string, c: char)
    ensures Occurrences(s + t, c) == Occurrences(s, c) + Occurrences(t, c)
    decreases |s|
  {
    if s == [] {
      assert s + t == t;
    } else {
      assert (s + t)[1..] == s[1..] + t;
      OccurrencesAppend(s[1..], t, c);
    }
  }

  lemma {:induction false} OccurrencesAbsent(s: string, c: char)
    requires c !in s
    ensures Occurrences(s, c) == 0
    decreases |s|
  {
    if s != [] {
      OccurrencesAbsent(s[1..], c);
    }
  }

  /** Lines of newline-free texts have one newline per text. */
  lemma {:induction false} LinesNewlines(texts: seq<string>)
    requires forall t :: t in texts ==> '\n' !in t
    ensures Occurrences(Lines(texts), '\n') == |texts|
    decreases |texts|
  {
    if texts != [] {
      var t := texts[0];
      assert '\n' !in t;
      assert forall u :: u in texts[1..] ==> u in texts;
      LinesNewlines(texts[1..]);
      OccurrencesAbsent(t, '\n');
      OccurrencesAppend(t, "\n", '\n');
      OccurrencesAppend(t + "\n", Lines(texts[1..]), '\n');
    }
  }

  /** A leaf's view is its type and a newline. */
  lemma ViewLeaf(node: PlanNode)
    requires node.plans == []
    ensures View(node) == node.nodeType + "\n"
  {
  }

  /** Every view begins with the node's own type and the newline after it. */
  lemma ViewPrefix(node: PlanNode)
    ensures |View(node)| > |node.nodeType|
    ensures View(node)[..|node.nodeType|] == node.nodeType
    ensures View(node)[|node.nodeType|] == '\n'
  {
    var v := View(node);
    assert v == node.nodeType + ("\n" + ChildrenView(node, 0));
  }

  /** The view is the pre-order list of node types, one per line. */
  lemma {:induction false} ViewPreOrder(node: PlanNode)
    ensures View(node) == Lines(Types(node))
    decreases node, 1
  {
    ChildrenPreOrder(node, 0);
    LinesAppend([node.nodeType], ChildrenTypes(node, 0));
    assert [node.nodeType][1..] == [];
  }

  lemma {:induction false} ChildrenPreOrder(node: PlanNode, i: nat)
    requires i <= |node.plans|
    ensures ChildrenView(node, i) == Lines(ChildrenTypes(node, i))
    decreases node, 0, |node.plans| - i
  {
    if i < |node.plans| {
      ViewPreOrder(node.plans[i]);
      ChildrenPreOrder(node, i + 1);
      LinesAppend(Types(node.plans[i]), ChildrenTypes(node, i + 1));
    }
  }

  /** The pre-order list has one entry per node. */
  lemma {:induction false} TypesCount(node: PlanNode)
    ensures |Types(node)| == Size(node)
    decreases node, 1
  {
    ChildrenTypesCount(node, 0);
  }

  lemma {:induction false} ChildrenTypesCount(node: PlanNode, i: nat)
    requires i <= |node.plans|
    ensures |ChildrenTypes(node, i)| == ChildrenSize(node, i)
    decreases node, 0, |node.plans| - i
  {
    if i < |node.plans| {
      TypesCount(node.plans[i]);
      ChildrenTypesCount(node, i + 1);
    }
  }

  /** When no node type holds a newline, the view has exactly one line per node. */
  lemma ViewLineCount(node: PlanNode)
    requires forall t :: t in Types(node) ==> '\n' !in t
    ensures Occurrences(View(node), '\n') == Size(node)
  {
    ViewPreOrder(node);
    LinesNewlines(Types(node));
    TypesCount(node);
  }
}
