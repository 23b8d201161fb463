/**
 * The EXPLAIN (FORMAT JSON) flattener of expjson.go.
 *
 * The plan tree, already decoded into a `Json` value, is walked once in
 * pre-order.  Every plan object becomes one `PlanNode` carrying two
 * addressings: the full-tree `position` and the `joinViewPosition`, in which
 * nodes that are neither joins, nor relation scans, nor gathers collapse
 * into their nearest significant ancestor.
 *
 * The specification functions (`ExtractNode`, `Flatten`, `Parse`) give the
 * result of the walk as a value; the class `ParseState` and its method
 * `ExtractPlanNodes` are the walk itself, with the shared id counter and the
 * shared output list updated in place, and `Convert` drives it.
 */
module ExpJson {
  import opened Wrappers
  import opened Strings
  import opened JsonValue

  // ---------------------------------------------------------------------
  // Data model
  // ---------------------------------------------------------------------

  /** One addressing of a node: its id, depth, parent id and visibility. */
  datatype Position = Position(id: int, level: int, parent: int, display: bool, belowGather: bool)

  /** The synthetic parent of the root, `Position{Id: 0, Level: 0, Parent: 0}`. */
  const RootPosition: Position := Position(0, 0, 0, false, false)

  /** The execution evidence recorded by EXPLAIN ANALYZE (and BUFFERS). */
  datatype Analyzed = Analyzed(
    launchedWorkers: int,
    startupTime: real,
    totalTime: real,
    actualLoops: int,
    actualRows: int,
    sharedBuffersHit: int,
    sharedBuffersRead: int,
    tempReadBlocks: int,
    tempWriteBlocks: int)

  /** The zero `Analyzed` record a node keeps when the plan was not analyzed. */
  const NotAnalyzed: Analyzed := Analyzed(0, 0.0, 0.0, 0, 0, 0, 0, 0, 0)

  /** One plan operator, with the fields expjson.go fills in. */
  datatype PlanNode = PlanNode(
    nodeType: string,
    planRows: int,
    partialMode: string,
    parallelAware: bool,
    position: Position,
    joinViewPosition: Position,
    relationName: string,
    isGather: bool,
    startupCost: real,
    totalCost: real,
    plannedWorkers: int,
    indexName: string,
    indexCond: string,
    filter: string,
    hashCond: string,
    groupKey: seq<string>,
    sortKeys: seq<string>,
    presortKeys: seq<string>,
    parentRelationship: string,
    parentIsNestedLoop: bool,
    planWidth: int,
    strategy: string,
    command: string,
    cteName: string,
    functionName: string,
    tableFunctionName: string,
    tidCond: string,
    operation: string,
    joinType: string,
    subPlanName: string,
    analyzed: Analyzed)

  /** Go's zero value `PlanNode{}`. */
  const EmptyPlanNode: PlanNode :=
    PlanNode("", 0, "", false, RootPosition, RootPosition, "", false, 0.0, 0.0, 0,
             "", "", "", "", [], [], [], "", false, 0,
             "", "", "", "", "", "", "", "", "", NotAnalyzed)

  /** One parsed plan document. */
  datatype ExplainPlan = ExplainPlan(nodes: seq<PlanNode>, analyzed: bool, executionTime: real)

  /**
   * Why a document is refused.  The first four are the envelope checks of
   * decodeJson (EmptyArray is the index panic on `planJson[0]`); every failed
   * type assertion inside the plan tree is a MalformedNode.
   */
  datatype ParseError = NotAnArray | EmptyArray | NotAnObject | NoPlanObject | MalformedNode

  /** The per-call part of Go's `ParseContext` (the two pointers are `ParseState`). */
  datatype Context = Context(belowGather: bool, parentNestedLoop: bool, analyzed: bool, hasBuffers: bool)

  /** What decodeJson returns: the root plan object and the top-level scalars. */
  datatype Envelope = Envelope(plan: map<string, Json>, executionTime: real, analyzed: bool)

  // ---------------------------------------------------------------------
  // Envelope
  // ---------------------------------------------------------------------

  /**
   * decodeJson: the document must be an array whose first element is an
   * object holding an object under "Plan"; further elements are ignored.
   * `analyzed` is whether the sibling "Execution Time" is a number.
   */
  function DecodeJson(doc: Json): (r: Result<Envelope, ParseError>)
    ensures !doc.JArr? ==> r == Failure(NotAnArray)
    ensures doc.JArr? && doc.items == [] ==> r == Failure(EmptyArray)
    ensures doc.JArr? && doc.items != [] && !doc.items[0].JObj? ==> r == Failure(NotAnObject)
    ensures doc.JArr? && doc.items != [] && doc.items[0].JObj? ==>
      var top := doc.items[0].fields;
      && (r.Success? <==> Lookup(top, "Plan").JObj?)
      && (r.Failure? ==> r.error == NoPlanObject)
      && (r.Success? ==>
            && r.value.plan == Lookup(top, "Plan").fields
            && (r.value.analyzed <==> Lookup(top, "Execution Time").JNum?)
            && r.value.executionTime == (if r.value.analyzed then Lookup(top, "Execution Time").n else 0.0))
  {
    match doc
    case JArr(items) =>
      if |items| == 0 then Failure(EmptyArray)
      else (
        match items[0]
        case JObj(top) =>
          (match Lookup(top, "Plan")
           case JObj(plan) =>
             (match Lookup(top, "Execution Time")
              case JNum(t) => Success(Envelope(plan, t, true))
              case _ => Success(Envelope(plan, 0.0, false)))
           case _ => Failure(NoPlanObject))
        case _ => Failure(NotAnObject))
    case _ => Failure(NotAnArray)
  }

  // ---------------------------------------------------------------------
  // Field access (the Go type assertions)
  // ---------------------------------------------------------------------

  predicate IsStr(plan: map<string, Json>, key: string) { Lookup(plan, key).JStr? }
  predicate IsNum(plan: map<string, Json>, key: string) { Lookup(plan, key).JNum? }
  predicate IsBool(plan: map<string, Json>, key: string) { Lookup(plan, key).JBool? }

  /** An optional string field: `v, ok := plan[key].(string)`, "" when not ok. */
  function StrOr(plan: map<string, Json>, key: string): string
  {
    match Lookup(plan, key)
    case JStr(s) => s
    case _ => ""
  }

  /** An optional number field: `v, _ := plan[key].(float64)`, 0 when not ok. */
  function NumOr0(plan: map<string, Json>, key: string): real
  {
    match Lookup(plan, key)
    case JNum(n) => n
    case _ => 0.0
  }

  /** A required number field, `plan[key].(float64)`. */
  function Num(plan: map<string, Json>, key: string): real
    requires IsNum(plan, key)
  {
    Lookup(plan, key).n
  }

  /**
   * A key list ("Group Key", "Sort Key", "Presorted Key"): absent or not an
   * array gives the empty list; an array must hold only strings.
   */
  function KeyList(plan: map<string, Json>, key: string): (r: Option<seq<string>>)
    ensures !Lookup(plan, key).JArr? ==> r == Some([])
    ensures Lookup(plan, key).JArr? ==>
      var items := Lookup(plan, key).items;
      && (r.Some? <==> forall i :: 0 <= i < |items| ==> items[i].JStr?)
      && (r.Some? ==> |r.value| == |items| && forall i :: 0 <= i < |items| ==> r.value[i] == items[i].s)
  {
    match Lookup(plan, key)
    case JArr(items) => StringItems(items)
    case _ => Some([])
  }

  function StringItems(items: seq<Json>): (r: Option<seq<string>>)
    ensures r.Some? <==> forall i :: 0 <= i < |items| ==> items[i].JStr?
    ensures r.Some? ==> |r.value| == |items| && forall i :: 0 <= i < |items| ==> r.value[i] == items[i].s
  {
    if items == [] then Some([])
    else match StringItems(items[..|items| - 1])
      case None => None
      case Some(front) =>
        (match items[|items| - 1]
         case JStr(s) => Some(front + [s])
         case _ => None)
  }

  /** The source's `isJoinType`. */
  predicate IsJoinType(nodeType: string)
  {
    nodeType in ["Nested Loop", "Hash Join", "Merge Join"]
  }

  /** A node that keeps its own place in the join view. */
  predicate Significant(n: PlanNode)
  {
    IsJoinType(n.nodeType) || n.relationName != "" || n.isGather
  }

  /**
   * The join-view rule for node `n` whose parent's join-view position is
   * `pj`: a significant node gets a fresh position under `pj`, any other
   * node takes `pj` itself with `display` switched off.
   */
  predicate JoinRule(n: PlanNode, pj: Position)
  {
    if Significant(n) then
      n.joinViewPosition == Position(n.position.id, pj.level + 1, pj.id, true, n.position.belowGather)
    else
      n.joinViewPosition == pj.(display := false)
  }

  /** The fields every plan node must carry, with their types. */
  predicate RequiredFields(plan: map<string, Json>)
  {
    IsStr(plan, "Node Type") && IsNum(plan, "Plan Rows") && IsBool(plan, "Parallel Aware")
    && IsNum(plan, "Plan Width") && IsNum(plan, "Startup Cost") && IsNum(plan, "Total Cost")
  }

  /** The fields an analyzed plan node must carry, and with buffers its counters. */
  predicate AnalyzedFields(plan: map<string, Json>, hasBuffers: bool)
  {
    IsNum(plan, "Actual Rows") && IsNum(plan, "Actual Startup Time")
    && IsNum(plan, "Actual Total Time") && IsNum(plan, "Actual Loops")
    && (hasBuffers ==>
          IsNum(plan, "Temp Read Blocks") && IsNum(plan, "Temp Written Blocks")
          && IsNum(plan, "Shared Read Blocks") && IsNum(plan, "Shared Hit Blocks"))
  }

  /** Every type assertion made on one plan object succeeds. */
  predicate NodeReadable(plan: map<string, Json>, ctx: Context)
  {
    && RequiredFields(plan)
    && KeyList(plan, "Group Key").Some?
    && KeyList(plan, "Sort Key").Some?
    && KeyList(plan, "Presorted Key").Some?
    && (ctx.analyzed ==> AnalyzedFields(plan, ctx.hasBuffers))
  }

  /** The worker count of a gather (plus one for the leader), 0 for anything else. */
  function Workers(isGather: bool, reported: real): int
  {
    if isGather then Trunc(reported) + 1 else 0
  }

  /** Lines 273-307: the `Analyzed` record of one node. */
  function ReadAnalyzed(plan: map<string, Json>, isGather: bool, hasBuffers: bool): Analyzed
    requires AnalyzedFields(plan, hasBuffers)
  {
    var base := Analyzed(
      Workers(isGather, NumOr0(plan, "Workers Launched")),
      Num(plan, "Actual Startup Time"),
      Num(plan, "Actual Total Time"),
      Trunc(Num(plan, "Actual Loops")),
      Trunc(Num(plan, "Actual Rows")),
      0, 0, 0, 0);
    if hasBuffers then
      base.(tempReadBlocks := Trunc(Num(plan, "Temp Read Blocks")),
            tempWriteBlocks := Trunc(Num(plan, "Temp Written Blocks")),
            sharedBuffersHit := Trunc(Num(plan, "Shared Hit Blocks")),
            sharedBuffersRead := Trunc(Num(plan, "Shared Read Blocks")))
    else base
  }

  /** The node record of lines 88-307, once the three key lists have been read. */
  function BuildNode(plan: map<string, Json>, groupKey: seq<string>, sortKeys: seq<string>,
                     presortKeys: seq<string>, parentPosition: Position,
                     parentJoinPosition: Position, ctx: Context, id: int): Result<PlanNode, ParseError>
  {
    if !RequiredFields(plan) || (ctx.analyzed && !AnalyzedFields(plan, ctx.hasBuffers)) then
      Failure(MalformedNode)
    else
      var nodeType := Lookup(plan, "Node Type").s;
      var relationName := StrOr(plan, "Relation Name");
      var isGather := Contains(nodeType, "Gather");
      var position := Position(id, parentPosition.level + 1, parentPosition.id, true, ctx.belowGather);
      var joinViewPosition :=
        if IsJoinType(nodeType) || relationName != "" || isGather then
          Position(id, parentJoinPosition.level + 1, parentJoinPosition.id, true, ctx.belowGather)
        else
          parentJoinPosition.(display := false);
      Success(PlanNode(
        nodeType,
        Trunc(Num(plan, "Plan Rows")),
        StrOr(plan, "Partial Mode"),
        Lookup(plan, "Parallel Aware").b,
        position,
        joinViewPosition,
        relationName,
        isGather,
        Num(plan, "Startup Cost"),
        Num(plan, "Total Cost"),
        Workers(isGather, NumOr0(plan, "Workers Planned")),
        StrOr(plan, "Index Name"),
        StrOr(plan, "Index Cond"),
        StrOr(plan, "Filter"),
        StrOr(plan, "Hash Cond"),
        groupKey,
        sortKeys,
        presortKeys,
        StrOr(plan, "Parent Relationship"),
        ctx.parentNestedLoop,
        Trunc(Num(plan, "Plan Width")),
        StrOr(plan, "Strategy"),
        StrOr(plan, "Command"),
        StrOr(plan, "CTE Name"),
        StrOr(plan, "Function Name"),
        StrOr(plan, "Table Function Name"),
        StrOr(plan, "TID Cond"),
        StrOr(plan, "Operation"),
        StrOr(plan, "Join Type"),
        StrOr(plan, "Subplan Name"),
        if ctx.analyzed then ReadAnalyzed(plan, isGather, ctx.hasBuffers) else NotAnalyzed))
  }

  /**
   * The record made for one plan object given id `id`, the positions of its
   * parent and the inherited context; `ExtractNodeFacts` states what the
   * source promises of it.
   */
  function ExtractNode(plan: map<string, Json>, parentPosition: Position,
                       parentJoinPosition: Position, ctx: Context, id: int): (r: Result<PlanNode, ParseError>)
    ensures r.Failure? ==> r.error == MalformedNode
  {
    match (KeyList(plan, "Group Key"), KeyList(plan, "Sort Key"), KeyList(plan, "Presorted Key"))
    case (Some(groupKey), Some(sortKeys), Some(presortKeys)) =>
      BuildNode(plan, groupKey, sortKeys, presortKeys, parentPosition, parentJoinPosition, ctx, id)
    case _ => Failure(MalformedNode)
  }

  /** The field-by-field meaning of one extracted node. */
  lemma ExtractNodeFacts(plan: map<string, Json>, parentPosition: Position,
                         parentJoinPosition: Position, ctx: Context, id: int)
    ensures var r := ExtractNode(plan, parentPosition, parentJoinPosition, ctx, id);
      && (r.Success? <==> NodeReadable(plan, ctx))
      && (r.Success? ==>
        var n := r.value;
        && n.nodeType == Lookup(plan, "Node Type").s
        && n.relationName == StrOr(plan, "Relation Name")
        && n.parentRelationship == StrOr(plan, "Parent Relationship")
        && n.planRows == Trunc(Lookup(plan, "Plan Rows").n)
        && n.groupKey == KeyList(plan, "Group Key").value
        && n.sortKeys == KeyList(plan, "Sort Key").value
        && n.presortKeys == KeyList(plan, "Presorted Key").value
        && (n.isGather <==> Contains(n.nodeType, "Gather"))
        && n.plannedWorkers == (if n.isGather then Trunc(NumOr0(plan, "Workers Planned")) + 1 else 0)
        && n.position == Position(id, parentPosition.level + 1, parentPosition.id, true, ctx.belowGather)
        && JoinRule(n, parentJoinPosition)
        && n.parentIsNestedLoop == ctx.parentNestedLoop
        && (!ctx.analyzed ==> n.analyzed == NotAnalyzed)
        && (ctx.analyzed ==>
              && n.analyzed.actualRows == Trunc(Lookup(plan, "Actual Rows").n)
              && n.analyzed.actualLoops == Trunc(Lookup(plan, "Actual Loops").n)
              && n.analyzed.launchedWorkers ==
                   (if n.isGather then Trunc(NumOr0(plan, "Workers Launched")) + 1 else 0))
        && (ctx.analyzed && ctx.hasBuffers ==>
              && n.analyzed.sharedBuffersHit == Trunc(Lookup(plan, "Shared Hit Blocks").n)
              && n.analyzed.sharedBuffersRead == Trunc(Lookup(plan, "Shared Read Blocks").n)
              && n.analyzed.tempReadBlocks == Trunc(Lookup(plan, "Temp Read Blocks").n)
              && n.analyzed.tempWriteBlocks == Trunc(Lookup(plan, "Temp Written Blocks").n))
        && (!ctx.hasBuffers ==>
              && n.analyzed.sharedBuffersHit == 0 && n.analyzed.sharedBuffersRead == 0
              && n.analyzed.tempReadBlocks == 0 && n.analyzed.tempWriteBlocks == 0))
  {
  }

  /** The remaining fields of one extracted node: costs, width, flags and the optional texts. */
  lemma ExtractNodeFieldFacts(plan: map<string, Json>, parentPosition: Position,
                              parentJoinPosition: Position, ctx: Context, id: int)
    ensures var r := ExtractNode(plan, parentPosition, parentJoinPosition, ctx, id);
      r.Success? ==>
        var n := r.value;
        && n.partialMode == StrOr(plan, "Partial Mode")
        && n.parallelAware == Lookup(plan, "Parallel Aware").b
        && n.startupCost == Lookup(plan, "Startup Cost").n
        && n.totalCost == Lookup(plan, "Total Cost").n
        && n.planWidth == Trunc(Lookup(plan, "Plan Width").n)
        && n.indexName == StrOr(plan, "Index Name")
        && n.indexCond == StrOr(plan, "Index Cond")
        && n.filter == StrOr(plan, "Filter")
        && n.hashCond == StrOr(plan, "Hash Cond")
        && n.strategy == StrOr(plan, "Strategy")
        && n.command == StrOr(plan, "Command")
        && n.cteName == StrOr(plan, "CTE Name")
        && n.functionName == StrOr(plan, "Function Name")
        && n.tableFunctionName == StrOr(plan, "Table Function Name")
        && n.tidCond == StrOr(plan, "TID Cond")
        && n.operation == StrOr(plan, "Operation")
        && n.joinType == StrOr(plan, "Join Type")
        && n.subPlanName == StrOr(plan, "Subplan Name")
        && (ctx.analyzed ==>
              && n.analyzed.startupTime == Lookup(plan, "Actual Startup Time").n
              && n.analyzed.totalTime == Lookup(plan, "Actual Total Time").n)
  {
  }

  /** The context handed to the children of `node` (lines 313-320). */
  function ChildContext(node: PlanNode, ctx: Context): Context
  {
    Context(node.isGather || ctx.belowGather, node.nodeType == "Nested Loop", ctx.analyzed, ctx.hasBuffers)
  }

  // ---------------------------------------------------------------------
  // The walk as a value
  // ---------------------------------------------------------------------

  /**
   * The nodes appended for the subtree rooted at `plan` when the shared
   * counter stands at `last`: the node itself (id `last + 1`), then its
   * children's subtrees in order.
   */
  function Flatten(plan: map<string, Json>, parentPosition: Position, parentJoinPosition: Position,
                   ctx: Context, last: int): (r: Result<seq<PlanNode>, ParseError>)
    ensures r.Failure? ==> r.error == MalformedNode
    decreases JObj(plan), 2
  {
    match ExtractNode(plan, parentPosition, parentJoinPosition, ctx, last + 1)
    case Failure(e) => Failure(e)
    case Success(node) =>
      match FlattenBelow(plan, node, ctx, last + 1)
      case Failure(e) => Failure(e)
      case Success(kids) => Success([node] + kids)
  }

  /** The subtrees below `node`, read from the "Plans" entry of its object `plan`. */
  function FlattenBelow(plan: map<string, Json>, node: PlanNode, ctx: Context, last: int): (r: Result<seq<PlanNode>, ParseError>)
    ensures r.Failure? ==> r.error == MalformedNode
    decreases JObj(plan), 1
  {
    if "Plans" !in plan then Success([])
    else FlattenPlans(plan["Plans"], node, ChildContext(node, ctx), last)
  }

  /** The "Plans" value of `parent`: nil means no children, anything but an array fails. */
  function FlattenPlans(plans: Json, parent: PlanNode, ctx: Context, last: int): (r: Result<seq<PlanNode>, ParseError>)
    ensures r.Failure? ==> r.error == MalformedNode
    decreases plans, 0
  {
    match plans
    case JNull => Success([])
    case JArr(items) => FlattenChildren(items, |items|, parent, ctx, last)
    case _ => Failure(MalformedNode)
  }

  /** The subtrees of the first `n` children `items` of `parent`, null entries skipped. */
  function FlattenChildren(items: seq<Json>, n: nat, parent: PlanNode, ctx: Context, last: int): (r: Result<seq<PlanNode>, ParseError>)
    requires n <= |items|
    ensures r.Failure? ==> r.error == MalformedNode
    decreases items, n
  {
    if n == 0 then Success([])
    else
      match FlattenChildren(items, n - 1, parent, ctx, last)
      case Failure(e) => Failure(e)
      case Success(front) =>
        match FlattenChild(items[n - 1], parent, ctx, last + |front|)
        case Failure(e) => Failure(e)
        case Success(sub) => Success(front + sub)
  }

  /** One entry of a "Plans" array: null is skipped, an object is a subtree, anything else fails. */
  function FlattenChild(item: Json, parent: PlanNode, ctx: Context, last: int): (r: Result<seq<PlanNode>, ParseError>)
    ensures r.Failure? ==> r.error == MalformedNode
    decreases item, 3
  {
    match item
    case JNull => Success([])
    case JObj(child) => Flatten(child, parent.position, parent.joinViewPosition, ctx, last)
    case _ => Failure(MalformedNode)
  }

  /** The context of the root call: nothing above it, flags from the envelope. */
  function RootContext(env: Envelope): Context
  {
    Context(false, false, env.analyzed, "Shared Read Blocks" in env.plan)
  }

  /** What Convert produces for a decoded document. */
  function Parse(doc: Json): Result<ExplainPlan, ParseError>
  {
    match DecodeJson(doc)
    case Failure(e) => Failure(e)
    case Success(env) =>
      match Flatten(env.plan, RootPosition, RootPosition, RootContext(env), 0)
      case Failure(e) => Failure(e)
      case Success(nodes) => Success(ExplainPlan(nodes, env.analyzed, env.executionTime))
  }

  /** `ExplainPlan.TotalBuffers`: shared hits plus reads of the first node. */
  function TotalBuffers(ep: ExplainPlan): int
    requires |ep.nodes| > 0
  {
    ep.nodes[0].analyzed.sharedBuffersHit + ep.nodes[0].analyzed.sharedBuffersRead
  }

  /** `ExplainPlan.TotalRows`: the actual rows of the first node. */
  function TotalRows(ep: ExplainPlan): int
    requires |ep.nodes| > 0
  {
    ep.nodes[0].analyzed.actualRows
  }

  /** A failed prefix of the children makes the whole list fail. */
  lemma {:induction false} ChildrenPrefixFailure(items: seq<Json>, k: nat, parent: PlanNode, ctx: Context, last: int)
    requires k <= |items|
    requires FlattenChildren(items, k, parent, ctx, last).Failure?
    ensures FlattenChildren(items, |items|, parent, ctx, last).Failure?
    decreases |items| - k
  {
    if k < |items| {
      assert FlattenChildren(items, k + 1, parent, ctx, last).Failure?;
      ChildrenPrefixFailure(items, k + 1, parent, ctx, last);
    }
  }

  // ---------------------------------------------------------------------
  // The walk itself
  // ---------------------------------------------------------------------

  /** The two pointers of `ParseContext`: the id counter and the output list. */
  class ParseState {
    var id: int
    var nodes: seq<PlanNode>

    constructor ()
      ensures id == 0 && nodes == []
    {
      id := 0;
      nodes := [];
    }

    /**
     * extractPlanNodes: reads one plan object, bumps the counter, appends the
     * node and then walks the children.  On success the appended nodes and
     * the counter are exactly those of `Flatten`; a failure is the source's
     * panic, after which nothing is said about the state.
     */
    method ExtractPlanNodes(plan: map<string, Json>, parentPosition: Position,
                            parentJoinPosition: Position, ctx: Context) returns (r: Result<PlanNode, ParseError>)
      modifies this
      decreases JObj(plan), 2
      ensures r.Success? <==> Flatten(plan, parentPosition, parentJoinPosition, ctx, old(id)).Success?
      ensures r.Failure? ==> r.error == MalformedNode
      ensures r.Success? ==>
        var ns := Flatten(plan, parentPosition, parentJoinPosition, ctx, old(id)).value;
        nodes == old(nodes) + ns && id == old(id) + |ns| && r.value == ns[0]
    {
      var built := ReadNode(plan, parentPosition, parentJoinPosition, ctx, id + 1);
      if built.Failure? {
        return Failure(MalformedNode);
      }
      var node := built.value;
      id := id + 1;
      nodes := nodes + [node];
      var ok := ExtractBelow(plan, node, ctx);
      if !ok {
        return Failure(MalformedNode);
      }
      return Success(node);
    }

    /** Lines 322-333 for the children of `node`, found under "Plans" in `plan`. */
    method ExtractBelow(plan: map<string, Json>, node: PlanNode, ctx: Context) returns (ok: bool)
      modifies this
      decreases JObj(plan), 1
      ensures ok <==> FlattenBelow(plan, node, ctx, old(id)).Success?
      ensures ok ==>
        var ns := FlattenBelow(plan, node, ctx, old(id)).value;
        nodes == old(nodes) + ns && id == old(id) + |ns|
    {
      if "Plans" !in plan {
        return true;
      }
      var plans := plan["Plans"];
      if plans.JNull? {
        return true;
      }
      if !plans.JArr? {
        return false;
      }
      ok := ExtractChildren(plans.items, node, ChildContext(node, ctx));
    }

    /**
     * The child loop of lines 322-333: null entries are skipped, objects are
     * walked in order, anything else fails.
     */
    method ExtractChildren(items: seq<Json>, parent: PlanNode, ctx: Context) returns (ok: bool)
      modifies this
      decreases items, 1
      ensures ok <==> FlattenChildren(items, |items|, parent, ctx, old(id)).Success?
      ensures ok ==>
        var ns := FlattenChildren(items, |items|, parent, ctx, old(id)).value;
        nodes == old(nodes) + ns && id == old(id) + |ns|
    {
      ghost var start := id;
      ghost var before := nodes;
      ghost var done: seq<PlanNode> := [];
      var i := 0;
      while i < |items|
        invariant 0 <= i <= |items|
        invariant FlattenChildren(items, i, parent, ctx, start) == Success(done)
        invariant nodes == before + done && id == start + |done|
      {
        var childOk, sub := ExtractChild(items[i], parent, ctx);
        if !childOk {
          assert FlattenChildren(items, i + 1, parent, ctx, start).Failure?;
          ChildrenPrefixFailure(items, i + 1, parent, ctx, start);
          return false;
        }
        done := done + sub;
        i := i + 1;
      }
      return true;
    }

    /**
     * The body of the child loop: a null entry is skipped, an object is
     * walked; `ns` are the nodes it appends.
     */
    method ExtractChild(item: Json, parent: PlanNode, ctx: Context) returns (ok: bool, ghost ns: seq<PlanNode>)
      modifies this
      decreases item, 3
      ensures ok <==> FlattenChild(item, parent, ctx, old(id)).Success?
      ensures ok ==>
        && FlattenChild(item, parent, ctx, old(id)) == Success(ns)
        && nodes == old(nodes) + ns && id == old(id) + |ns|
    {
      ns := [];
      if item.JNull? {
        return true, ns;
      }
      if !item.JObj? {
        return false, ns;
      }
      var sub := ExtractPlanNodes(item.fields, parent.position, parent.joinViewPosition, ctx);
      ok := sub.Success?;
      if ok {
        ns := Flatten(item.fields, parent.position, parent.joinViewPosition, ctx, old(id)).value;
      }
    }
  }

  /** Lines 88-307: reads the fields of one plan object into a node record. */
  method ReadNode(plan: map<string, Json>, parentPosition: Position,
                  parentJoinPosition: Position, ctx: Context, id: int) returns (r: Result<PlanNode, ParseError>)
    ensures r == ExtractNode(plan, parentPosition, parentJoinPosition, ctx, id)
  {
    var groupKey := CollectStrings(plan, "Group Key");
    var sortKeys := CollectStrings(plan, "Sort Key");
    var presortKeys := CollectStrings(plan, "Presorted Key");
    if groupKey.None? || sortKeys.None? || presortKeys.None? {
      return Failure(MalformedNode);
    }
    r := BuildNode(plan, groupKey.value, sortKeys.value, presortKeys.value,
                   parentPosition, parentJoinPosition, ctx, id);
  }

  /** The key-list loops of lines 169-191: collect the strings of an array field. */
  method CollectStrings(plan: map<string, Json>, key: string) returns (r: Option<seq<string>>)
    ensures r == KeyList(plan, key)
  {
    var field := Lookup(plan, key);
    if !field.JArr? {
      return Some([]);
    }
    var items := field.items;
    var keys: seq<string> := [];
    var i := 0;
    while i < |items|
      invariant 0 <= i <= |items|
      invariant StringItems(items[..i]) == Some(keys)
    {
      var prefix := items[..i + 1];
      assert prefix[..|prefix| - 1] == items[..i];
      if !items[i].JStr? {
        assert forall j :: 0 <= j < |items| ==> items[j].JStr? ==> j != i;
        return None;
      }
      keys := keys + [items[i].s];
      i := i + 1;
    }
    assert items[..i] == items;
    return Some(keys);
  }

  /** Convert: decode the envelope, then walk the plan from the synthetic root. */
  method Convert(doc: Json) returns (r: Result<ExplainPlan, ParseError>)
    ensures r == Parse(doc)
  {
    var decoded := DecodeJson(doc);
    if decoded.Failure? {
      return Failure(decoded.error);
    }
    var env := decoded.value;
    var hasBuffers := "Shared Read Blocks" in env.plan;
    var state := new ParseState();
    var root := state.ExtractPlanNodes(env.plan, RootPosition, RootPosition,
                                       Context(false, false, env.analyzed, hasBuffers));
    if root.Failure? {
      return Failure(MalformedNode);
    }
    assert state.nodes == Flatten(env.plan, RootPosition, RootPosition, RootContext(env), 0).value;
    return Success(ExplainPlan(state.nodes, env.analyzed, env.executionTime));
  }
}
