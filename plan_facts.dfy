/**
 * What the flattener guarantees about the list it produces: dense pre-order
 * ids, consistent parent links and levels, the join-view collapse, the
 * inherited context flags and the gating of the analyze and buffer fields.
 *
 * The facts are first proved for every subtree (`Subtree`), by one mutual
 * induction that follows `Flatten`, and then read off for a whole document
 * (`Parse`).
 */
module PlanFacts {
  import opened Wrappers
  import opened Strings
  import opened JsonValue
  import opened ExpJson

  // ---------------------------------------------------------------------
  // An independent count of plan objects
  // ---------------------------------------------------------------------

  /** The number of plan objects in the tree rooted at `plan` (null children do not count). */
  function NodeCount(plan: map<string, Json>): nat
    decreases JObj(plan), 2
  {
    1 + (if "Plans" in plan then PlansCount(plan["Plans"]) else 0)
  }

  function PlansCount(plans: Json): nat
    decreases plans, 0
  {
    match plans
    case JArr(items) => ItemsCount(items, |items|)
    case _ => 0
  }

  function ItemsCount(items: seq<Json>, n: nat): nat
    requires n <= |items|
    decreases items, n
  {
    if n == 0 then 0 else ItemsCount(items, n - 1) + ItemCount(items[n - 1])
  }

  function ItemCount(item: Json): nat
    decreases item, 3
  {
    match item
    case JObj(child) => NodeCount(child)
    case _ => 0
  }

  // ---------------------------------------------------------------------
  // The shape of a flattened forest
  // ---------------------------------------------------------------------

  /** Facts about one node that do not depend on where it sits. */
  predicate LocalFacts(n: PlanNode, analyzed: bool, hasBuffers: bool)
  {
    && n.position.display
    && (n.isGather <==> Contains(n.nodeType, "Gather"))
    && (!n.isGather ==> n.plannedWorkers == 0 && n.analyzed.launchedWorkers == 0)
    && (!analyzed ==> n.analyzed == NotAnalyzed)
    && (!hasBuffers ==>
          && n.analyzed.sharedBuffersHit == 0 && n.analyzed.sharedBuffersRead == 0
          && n.analyzed.tempReadBlocks == 0 && n.analyzed.tempWriteBlocks == 0)
  }

  /** `n` hangs directly below the outer parent described by `pp`, `pj` and `ctx`. */
  predicate BelowOuter(n: PlanNode, pp: Position, pj: Position, ctx: Context)
  {
    && n.position.parent == pp.id
    && n.position.level == pp.level + 1
    && JoinRule(n, pj)
    && n.position.belowGather == ctx.belowGather
    && n.parentIsNestedLoop == ctx.parentNestedLoop
  }

  /** `n` hangs directly below the node `p`. */
  predicate BelowNode(n: PlanNode, p: PlanNode)
  {
    && n.position.parent == p.position.id
    && n.position.level == p.position.level + 1
    && JoinRule(n, p.joinViewPosition)
    && n.position.belowGather == (p.isGather || p.position.belowGather)
    && n.parentIsNestedLoop == (p.nodeType == "Nested Loop")
  }

  /**
   * `ns` was emitted while the counter went from `last` to `last + |ns|`,
   * below an outer parent: node `k` has id `last + 1 + k`, and its parent is
   * either the outer one or an earlier node of `ns`.
   */
  ghost predicate Linked(ns: seq<PlanNode>, pp: Position, pj: Position, ctx: Context, last: int)
  {
    forall k :: 0 <= k < |ns| ==> LinkedAt(ns, k, pp, pj, ctx, last)
  }

  /** The clause of `Linked` for node `k`. */
  predicate LinkedAt(ns: seq<PlanNode>, k: int, pp: Position, pj: Position, ctx: Context, last: int)
    requires 0 <= k < |ns|
  {
    && ns[k].position.id == last + 1 + k
    && LocalFacts(ns[k], ctx.analyzed, ctx.hasBuffers)
    && (BelowOuter(ns[k], pp, pj, ctx)
        || (last + 1 <= ns[k].position.parent < last + 1 + k
            && BelowNode(ns[k], ns[ns[k].position.parent - last - 1])))
  }

  /** `ns` is one subtree: linked, and only its first node hangs below the outer parent. */
  ghost predicate Subtree(ns: seq<PlanNode>, pp: Position, pj: Position, ctx: Context, last: int)
  {
    && |ns| >= 1
    && Linked(ns, pp, pj, ctx, last)
    && forall k :: 1 <= k < |ns| ==> ns[k].position.parent > last
  }

  lemma LinkedAppend(front: seq<PlanNode>, sub: seq<PlanNode>, pp: Position, pj: Position, ctx: Context, last: int)
    requires Linked(front, pp, pj, ctx, last)
    requires Subtree(sub, pp, pj, ctx, last + |front|)
    ensures Linked(front + sub, pp, pj, ctx, last)
  {
    var ns := front + sub;
    forall k | 0 <= k < |ns|
      ensures LinkedAt(ns, k, pp, pj, ctx, last)
    {
      if k < |front| {
        assert LinkedAt(front, k, pp, pj, ctx, last);
        assert ns[k] == front[k];
        if !BelowOuter(front[k], pp, pj, ctx) {
          var p := front[k].position.parent;
          assert ns[p - last - 1] == front[p - last - 1];
        }
      } else {
        var m := k - |front|;
        assert LinkedAt(sub, m, pp, pj, ctx, last + |front|);
        assert ns[k] == sub[m];
        if !BelowOuter(sub[m], pp, pj, ctx) {
          var p := sub[m].position.parent;
          assert ns[p - last - 1] == sub[p - (last + |front|) - 1];
        }
      }
    }
  }

  lemma SubtreeCons(node: PlanNode, kids: seq<PlanNode>, pp: Position, pj: Position, ctx: Context, last: int)
    requires node.position == Position(last + 1, pp.level + 1, pp.id, true, ctx.belowGather)
    requires JoinRule(node, pj) && node.parentIsNestedLoop == ctx.parentNestedLoop
    requires LocalFacts(node, ctx.analyzed, ctx.hasBuffers)
    requires Linked(kids, node.position, node.joinViewPosition, ChildContext(node, ctx), last + 1)
    ensures Subtree([node] + kids, pp, pj, ctx, last)
  {
    var ns := [node] + kids;
    forall k | 0 <= k < |ns|
      ensures LinkedAt(ns, k, pp, pj, ctx, last)
      ensures k >= 1 ==> ns[k].position.parent > last
    {
      if k >= 1 {
        assert LinkedAt(kids, k - 1, node.position, node.joinViewPosition, ChildContext(node, ctx), last + 1);
        assert ns[k] == kids[k - 1];
        var p := kids[k - 1].position.parent;
        if p != last + 1 {
          assert ns[p - last - 1] == kids[p - (last + 1) - 1];
        }
      }
    }
  }

  // ---------------------------------------------------------------------
  // The induction that follows Flatten
  // ---------------------------------------------------------------------

  lemma {:induction false} FlattenSubtree(plan: map<string, Json>, pp: Position, pj: Position, ctx: Context, last: int)
    requires pp.id <= last
    requires Flatten(plan, pp, pj, ctx, last).Success?
    ensures var ns := Flatten(plan, pp, pj, ctx, last).value;
      Subtree(ns, pp, pj, ctx, last) && |ns| == NodeCount(plan)
    decreases JObj(plan), 2
  {
    ExtractNodeFacts(plan, pp, pj, ctx, last + 1);
    var node := ExtractNode(plan, pp, pj, ctx, last + 1).value;
    FlattenBelowLinked(plan, node, ctx, last + 1);
    var kids := FlattenBelow(plan, node, ctx, last + 1).value;
    SubtreeCons(node, kids, pp, pj, ctx, last);
  }

  lemma {:induction false} FlattenBelowLinked(plan: map<string, Json>, node: PlanNode, ctx: Context, last: int)
    requires node.position.id == last
    requires FlattenBelow(plan, node, ctx, last).Success?
    ensures var ks := FlattenBelow(plan, node, ctx, last).value;
      && Linked(ks, node.position, node.joinViewPosition, ChildContext(node, ctx), last)
      && |ks| + 1 == NodeCount(plan)
    decreases JObj(plan), 1
  {
    if "Plans" in plan {
      FlattenPlansLinked(plan["Plans"], node, ChildContext(node, ctx), last);
    }
  }

  lemma {:induction false} FlattenPlansLinked(plans: Json, parent: PlanNode, ctx: Context, last: int)
    requires parent.position.id <= last
    requires FlattenPlans(plans, parent, ctx, last).Success?
    ensures var ks := FlattenPlans(plans, parent, ctx, last).value;
      Linked(ks, parent.position, parent.joinViewPosition, ctx, last) && |ks| == PlansCount(plans)
    decreases plans, 0
  {
    if plans.JArr? {
      FlattenChildrenLinked(plans.items, |plans.items|, parent, ctx, last);
    }
  }

  lemma {:induction false} FlattenChildrenLinked(items: seq<Json>, n: nat, parent: PlanNode, ctx: Context, last: int)
    requires n <= |items|
    requires parent.position.id <= last
    requires FlattenChildren(items, n, parent, ctx, last).Success?
    ensures var ks := FlattenChildren(items, n, parent, ctx, last).value;
      Linked(ks, parent.position, parent.joinViewPosition, ctx, last) && |ks| == ItemsCount(items, n)
    decreases items, n
  {
    if n > 0 {
      FlattenChildrenLinked(items, n - 1, parent, ctx, last);
      var front := FlattenChildren(items, n - 1, parent, ctx, last).value;
      FlattenChildLinked(items[n - 1], parent, ctx, last + |front|);
      var sub := FlattenChild(items[n - 1], parent, ctx, last + |front|).value;
      if items[n - 1].JObj? {
        LinkedAppend(front, sub, parent.position, parent.joinViewPosition, ctx, last);
      } else {
        assert front + sub == front;
      }
    }
  }

  lemma {:induction false} FlattenChildLinked(item: Json, parent: PlanNode, ctx: Context, last: int)
    requires parent.position.id <= last
    requires FlattenChild(item, parent, ctx, last).Success?
    ensures var ks := FlattenChild(item, parent, ctx, last).value;
      && |ks| == ItemCount(item)
      && (item.JObj? ==> Subtree(ks, parent.position, parent.joinViewPosition, ctx, last))
      && (!item.JObj? ==> ks == [])
    decreases item, 3
  {
    if item.JObj? {
      FlattenSubtree(item.fields, parent.position, parent.joinViewPosition, ctx, last);
    }
  }

  // ---------------------------------------------------------------------
  // Ancestry along parent links
  // ---------------------------------------------------------------------

  /** The list index of the parent of node `k`, when it is an earlier node of a rooted list. */
  predicate HasParent(ns: seq<PlanNode>, k: int)
  {
    0 <= k < |ns| && 1 <= ns[k].position.parent <= k
  }

  /** Some proper ancestor of node `k` (following parent ids) is a gather. */
  function GatherAbove(ns: seq<PlanNode>, k: int): bool
    decreases k
  {
    if HasParent(ns, k) then
      var j := ns[k].position.parent - 1;
      ns[j].isGather || GatherAbove(ns, j)
    else false
  }

  /** The id of the nearest significant node among node `k` and its ancestors, 0 if none. */
  function JoinAnchor(ns: seq<PlanNode>, k: int): int
    decreases k
  {
    if 0 <= k < |ns| && Significant(ns[k]) then ns[k].position.id
    else if HasParent(ns, k) then JoinAnchor(ns, ns[k].position.parent - 1)
    else 0
  }

  /** The number of significant nodes among node `k` and its ancestors. */
  function JoinDepth(ns: seq<PlanNode>, k: int): nat
    decreases k
  {
    var own := if 0 <= k < |ns| && Significant(ns[k]) then 1 else 0;
    if HasParent(ns, k) then own + JoinDepth(ns, ns[k].position.parent - 1) else own
  }

  /** Every node after the first hangs below an earlier node. */
  predicate ParentLinks(ns: seq<PlanNode>)
  {
    forall k :: 1 <= k < |ns| ==> HasParent(ns, k) && BelowNode(ns[k], ns[ns[k].position.parent - 1])
  }

  /** A whole flattened plan: one subtree below the synthetic root, with an empty context. */
  ghost predicate Rooted(ns: seq<PlanNode>, ctx: Context)
  {
    Subtree(ns, RootPosition, RootPosition, ctx, 0) && !ctx.belowGather && !ctx.parentNestedLoop
  }

  /** In a rooted list, node 0 is the root and every other node hangs below an earlier one. */
  lemma RootedLinks(ns: seq<PlanNode>, ctx: Context)
    requires Rooted(ns, ctx)
    ensures ns[0].position == Position(1, 1, 0, true, false)
    ensures JoinRule(ns[0], RootPosition) && !ns[0].parentIsNestedLoop
    ensures !HasParent(ns, 0)
    ensures forall k :: 0 <= k < |ns| ==> ns[k].position.id == k + 1
    ensures forall k :: 0 <= k < |ns| ==> LocalFacts(ns[k], ctx.analyzed, ctx.hasBuffers)
    ensures forall k :: 1 <= k < |ns| ==>
      HasParent(ns, k) && BelowNode(ns[k], ns[ns[k].position.parent - 1])
  {
    assert LinkedAt(ns, 0, RootPosition, RootPosition, ctx, 0);
    forall k | 0 <= k < |ns|
      ensures ns[k].position.id == k + 1
      ensures LocalFacts(ns[k], ctx.analyzed, ctx.hasBuffers)
    {
      assert LinkedAt(ns, k, RootPosition, RootPosition, ctx, 0);
    }
    forall k | 1 <= k < |ns|
      ensures HasParent(ns, k) && BelowNode(ns[k], ns[ns[k].position.parent - 1])
    {
      assert LinkedAt(ns, k, RootPosition, RootPosition, ctx, 0);
      assert ns[k].position.parent > 0;
    }
  }

  /** `belowGather` on node `k` is exactly "some proper ancestor is a gather". */
  lemma {:induction false} RootedBelowGather(ns: seq<PlanNode>, ctx: Context, k: nat)
    requires Rooted(ns, ctx) && k < |ns|
    ensures ns[k].position.belowGather == GatherAbove(ns, k)
    decreases k
  {
    RootedLinks(ns, ctx);
    if k >= 1 {
      assert HasParent(ns, k);
      RootedBelowGather(ns, ctx, ns[k].position.parent - 1);
    }
  }

  /**
   * The join-view position of node `k`: its id is the nearest significant
   * node at or above it (0 when there is none), its level counts the
   * significant nodes at or above it, and it is displayed exactly when the
   * node is significant, in which case it points at the nearest significant
   * proper ancestor.
   */
  lemma {:induction false} RootedJoinView(ns: seq<PlanNode>, ctx: Context, k: nat)
    requires Rooted(ns, ctx) && k < |ns|
    ensures ns[k].joinViewPosition.id == JoinAnchor(ns, k)
    ensures ns[k].joinViewPosition.level == JoinDepth(ns, k)
    ensures ns[k].joinViewPosition.display <==> Significant(ns[k])
    ensures Significant(ns[k]) ==>
      ns[k].joinViewPosition.parent == (if k == 0 then 0 else JoinAnchor(ns, ns[k].position.parent - 1))
    decreases k
  {
    RootedLinks(ns, ctx);
    if k >= 1 {
      assert HasParent(ns, k);
      RootedJoinView(ns, ctx, ns[k].position.parent - 1);
    }
  }

  // ---------------------------------------------------------------------
  // What a parsed document looks like
  // ---------------------------------------------------------------------

  /** A parsed document's nodes form one rooted list, one node per plan object. */
  lemma ParseRooted(doc: Json)
    requires Parse(doc).Success?
    ensures DecodeJson(doc).Success?
    ensures var env := DecodeJson(doc).value;
      && Rooted(Parse(doc).value.nodes, RootContext(env))
      && |Parse(doc).value.nodes| == NodeCount(env.plan)
  {
    var env := DecodeJson(doc).value;
    FlattenSubtree(env.plan, RootPosition, RootPosition, RootContext(env), 0);
  }

  /**
   * Ids are 1, 2, ... in list order; the first node is the displayed root at
   * level 1 with parent 0; every later node's parent is an earlier node, one
   * level up, whose type and gather flag decide the child's flags.
   */
  lemma ParseShape(doc: Json)
    requires Parse(doc).Success?
    ensures var ns := Parse(doc).value.nodes;
      && |ns| >= 1
      && ns[0].position == Position(1, 1, 0, true, false)
      && !ns[0].parentIsNestedLoop
      && (forall k :: 0 <= k < |ns| ==> ns[k].position.id == k + 1 && ns[k].position.display)
      && ParentLinks(ns)
  {
    ParseRooted(doc);
    var env := DecodeJson(doc).value;
    var ns := Parse(doc).value.nodes;
    RootedLinks(ns, RootContext(env));
    forall k | 0 <= k < |ns| ensures ns[k].position.display {
      assert LocalFacts(ns[k], env.analyzed, "Shared Read Blocks" in env.plan);
    }
  }

  /**
   * The analyze fields are all zero unless the document reports an
   * execution time, and the buffer counters are all zero unless the
   * top-level plan reports shared read blocks; worker counts are zero on
   * nodes that are not gathers.
   */
  lemma ParseGating(doc: Json)
    requires Parse(doc).Success?
    ensures DecodeJson(doc).Success?
    ensures var ep := Parse(doc).value;
      var env := DecodeJson(doc).value;
      && ep.analyzed == env.analyzed
      && ep.executionTime == env.executionTime
      && forall k :: 0 <= k < |ep.nodes| ==> LocalFacts(ep.nodes[k], env.analyzed, "Shared Read Blocks" in env.plan)
  {
    ParseRooted(doc);
    RootedLinks(Parse(doc).value.nodes, RootContext(DecodeJson(doc).value));
  }

  /** Without an execution time the plan's totals are zero. */
  lemma ParseTotalsUnanalyzed(doc: Json)
    requires Parse(doc).Success? && !Parse(doc).value.analyzed
    ensures |Parse(doc).value.nodes| >= 1
    ensures TotalRows(Parse(doc).value) == 0 && TotalBuffers(Parse(doc).value) == 0
  {
    ParseGating(doc);
    ParseRooted(doc);
    var ns := Parse(doc).value.nodes;
    assert LocalFacts(ns[0], false, "Shared Read Blocks" in DecodeJson(doc).value.plan);
  }

  /** A node is marked as below a gather exactly when some proper ancestor is a gather. */
  lemma ParseBelowGather(doc: Json, k: nat)
    requires Parse(doc).Success? && k < |Parse(doc).value.nodes|
    ensures Parse(doc).value.nodes[k].position.belowGather == GatherAbove(Parse(doc).value.nodes, k)
  {
    ParseRooted(doc);
    RootedBelowGather(Parse(doc).value.nodes, RootContext(DecodeJson(doc).value), k);
  }

  /** The join view of a parsed document, in terms of significant ancestors. */
  lemma ParseJoinView(doc: Json, k: nat)
    requires Parse(doc).Success? && k < |Parse(doc).value.nodes|
    ensures var ns := Parse(doc).value.nodes;
      && ns[k].joinViewPosition.id == JoinAnchor(ns, k)
      && ns[k].joinViewPosition.level == JoinDepth(ns, k)
      && (ns[k].joinViewPosition.display <==> Significant(ns[k]))
      && (Significant(ns[k]) ==>
            ns[k].joinViewPosition.parent == (if k == 0 then 0 else JoinAnchor(ns, ns[k].position.parent - 1)))
  {
    ParseRooted(doc);
    RootedJoinView(Parse(doc).value.nodes, RootContext(DecodeJson(doc).value), k);
  }

  /** Only the first element of the top-level array is read. */
  lemma ParseFirstElementOnly(doc: Json)
    requires doc.JArr? && |doc.items| >= 1
    ensures Parse(doc) == Parse(JArr(doc.items[..1]))
  {
    assert JArr(doc.items[..1]).items[0] == doc.items[0];
  }

  /** Where each error of `Parse` comes from. */
  lemma ParseErrors(doc: Json)
    ensures !doc.JArr? ==> Parse(doc) == Failure(NotAnArray)
    ensures doc.JArr? && doc.items == [] ==> Parse(doc) == Failure(EmptyArray)
    ensures doc.JArr? && doc.items != [] && !doc.items[0].JObj? ==> Parse(doc) == Failure(NotAnObject)
    ensures doc.JArr? && doc.items != [] && doc.items[0].JObj? && !Lookup(doc.items[0].fields, "Plan").JObj? ==>
      Parse(doc) == Failure(NoPlanObject)
    ensures DecodeJson(doc).Success? ==>
      var env := DecodeJson(doc).value;
      && (Parse(doc).Failure? ==> Parse(doc) == Failure(MalformedNode))
      && (!NodeReadable(env.plan, RootContext(env)) ==> Parse(doc) == Failure(MalformedNode))
  {
    if DecodeJson(doc).Success? {
      var env := DecodeJson(doc).value;
      ExtractNodeFacts(env.plan, RootPosition, RootPosition, RootContext(env), 1);
    }
  }
}
