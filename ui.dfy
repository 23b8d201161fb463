/**
 * The key handling of ui.go that is plain state: the filter that picks the
 * displayed nodes, the cycling through the statistic views, and the model
 * whose cursor, join-view flag, statistic view and selected node the keys
 * update.
 */
module Ui {
  import opened ExpJson
  import opened Settings

  // ---------------------------------------------------------------------
  // Statistic views
  // ---------------------------------------------------------------------

  /** Which per-node statistic the tree shows; the source has five views, 0 to 4. */
  newtype StatView = s: int | 0 <= s < 5

  const DisplayNothing: StatView := 0
  const DisplayRows: StatView := 1
  const DisplayBuffers: StatView := 2
  const DisplayTime: StatView := 3
  const DisplayCost: StatView := 4

  /** The views that need no EXPLAIN ANALYZE data. */
  predicate Basic(s: StatView)
  {
    s == DisplayRows || s == DisplayCost || s == DisplayNothing
  }

  /** The view `d` steps forward from `s`, cyclically. */
  function Advance(s: StatView, d: nat): StatView
    requires d < 5
  {
    if s as int + d < 5 then (s as int + d) as StatView else (s as int + d - 5) as StatView
  }

  /** The view `d` steps back from `s`, cyclically. */
  function Retreat(s: StatView, d: nat): StatView
    requires d < 5
  {
    if d <= s as int then (s as int - d) as StatView else (s as int - d + 5) as StatView
  }

  /** How many forward steps lead from `s` to `t`. */
  function Distance(s: StatView, t: StatView): (r: nat)
    ensures r < 5
    ensures Advance(s, r) == t && Retreat(t, r) == s
  {
    if s <= t then (t - s) as nat else (t as int - s as int + 5) as nat
  }

  /**
   * One pass of the `nextStatDisplay` loop body, `(s + 1) % 5`: on a view
   * below 5 that is the next view, DisplayCost wrapping to DisplayNothing.
   */
  function Forward(s: StatView): StatView
  {
    if s == DisplayCost then DisplayNothing else s + 1
  }

  /**
   * One pass of the `prevStatDisplay` loop body: 0 goes to DisplayCost and
   * any other view to `(s - 1) % 5`, which is `s - 1` since Go's remainder
   * is taken of a non-negative number there.
   */
  function Backward(s: StatView): StatView
  {
    if s == DisplayNothing then DisplayCost else s - 1
  }

  /** The view `nextStatDisplay` returns: step forward until analyzed or at a basic view. */
  function NextStat(s: StatView, analyzed: bool): StatView
    decreases 5 - s as int
  {
    var v := Forward(s);
    if analyzed || Basic(v) then v else NextStat(v, analyzed)
  }

  /** The view `prevStatDisplay` returns: step back until analyzed or at a basic view. */
  function PrevStat(s: StatView, analyzed: bool): StatView
    decreases s
  {
    var v := Backward(s);
    if analyzed || Basic(v) then v else PrevStat(v, analyzed)
  }

  /**
   * With analyze data the next view is simply the following one; without,
   * it is the first basic view after `s`, reached within three steps.
   */
  lemma NextStatFacts(s: StatView, analyzed: bool)
    ensures analyzed ==> NextStat(s, analyzed) == Advance(s, 1)
    ensures !analyzed ==>
      var r := NextStat(s, analyzed);
      && Basic(r)
      && 1 <= Distance(s, r) <= 3
      && forall d :: 1 <= d < Distance(s, r) ==> !Basic(Advance(s, d))
  {
    if !analyzed {
      if s == 1 {
        assert Advance(1, 1) == 2 && Advance(1, 2) == 3;
      } else if s == 2 {
        assert Advance(2, 1) == 3;
      }
    }
  }

  /**
   * With analyze data the previous view is the one before (0 wraps to
   * DisplayCost); without, it is the first basic view before `s`, reached
   * within three steps.
   */
  lemma PrevStatFacts(s: StatView, analyzed: bool)
    ensures analyzed ==> PrevStat(s, analyzed) == Retreat(s, 1)
    ensures s == 0 ==> PrevStat(s, analyzed) == DisplayCost
    ensures !analyzed ==>
      var r := PrevStat(s, analyzed);
      && Basic(r)
      && 1 <= Distance(r, s) <= 3
      && forall d :: 1 <= d < Distance(r, s) ==> !Basic(Retreat(s, d))
  {
    if !analyzed {
      if s == 4 {
        assert Backward(4) == 3 && Backward(3) == 2 && Backward(2) == 1;
        assert Retreat(4, 1) == 3 && Retreat(4, 2) == 2;
      } else if s == 3 {
        assert Backward(3) == 2 && Backward(2) == 1;
        assert Retreat(3, 1) == 2;
      }
    }
  }

  /** Next and previous undo each other on every view that can be reached. */
  lemma StatRoundTrip(s: StatView, analyzed: bool)
    requires analyzed || Basic(s)
    ensures PrevStat(NextStat(s, analyzed), analyzed) == s
    ensures NextStat(PrevStat(s, analyzed), analyzed) == s
  {
    if !analyzed {
      assert Forward(1) == 2 && Forward(2) == 3 && Forward(3) == 4;
      assert Backward(4) == 3 && Backward(3) == 2 && Backward(2) == 1;
    }
  }

  /** `nextStatDisplay`: the `for true` loop that steps forward. */
  method NextStatDisplay(s: StatView, analyzed: bool) returns (r: StatView)
    ensures r == NextStat(s, analyzed)
  {
    r := s;
    while true
      invariant NextStat(r, analyzed) == NextStat(s, analyzed)
      decreases 5 - r as int
    {
      ghost var before := r;
      r := ((r as int + 1) % 5) as StatView;
      assert r == Forward(before);
      if analyzed {
        break;
      } else if Basic(r) {
        break;
      }
      assert r as int == before as int + 1;
    }
  }

  /** `prevStatDisplay`: the `for true` loop that steps back. */
  method PrevStatDisplay(s: StatView, analyzed: bool) returns (r: StatView)
    ensures r == PrevStat(s, analyzed)
  {
    r := s;
    while true
      invariant PrevStat(r, analyzed) == PrevStat(s, analyzed)
      decreases r
    {
      ghost var before := r;
      if r == 0 {
        r := DisplayCost;
      } else {
        r := ((r as int - 1) % 5) as StatView;
      }
      assert r == Backward(before);
      if analyzed {
        break;
      } else if Basic(r) {
        break;
      }
      assert r as int == before as int - 1;
    }
  }

  /** A stat toggle key: its own view, or DisplayNothing when that view is already shown. */
  function Toggled(current: StatView, view: StatView): (r: StatView)
    ensures r == view <==> (current != view || view == DisplayNothing)
    ensures r == DisplayNothing <==> (current == view || view == DisplayNothing)
  {
    if current == view then DisplayNothing else view
  }

  // ---------------------------------------------------------------------
  // The displayed nodes
  // ---------------------------------------------------------------------

  /** The per-program flags and cursors of Go's `ProgramContext` that the keys change. */
  datatype ProgramContext = ProgramContext(
    indent: bool,
    cursor: int,
    settingsCursor: int,
    joinView: bool,
    statDisplay: StatView,
    analyzed: bool,
    selectedNode: PlanNode,
    displayNextSettings: bool,
    displaySettings: bool,
    displayParallel: bool,
    displaySql: bool)

  /** The nodes of `nodes` for which `display` holds, in their order. */
  function Shown(nodes: seq<PlanNode>, display: (PlanNode, ProgramContext) -> bool, ctx: ProgramContext): (r: seq<PlanNode>)
    ensures |r| <= |nodes|
    decreases |nodes|
  {
    if nodes == [] then []
    else
      var front := Shown(nodes[..|nodes| - 1], display, ctx);
      if display(nodes[|nodes| - 1], ctx) then front + [nodes[|nodes| - 1]] else front
  }

  /** `a` is `b` with some elements left out, the rest kept in order. */
  predicate Subsequence(a: seq<PlanNode>, b: seq<PlanNode>)
    decreases |b|
  {
    if a == [] then true
    else if b == [] then false
    else (a[|a| - 1] == b[|b| - 1] && Subsequence(a[..|a| - 1], b[..|b| - 1]))
         || Subsequence(a, b[..|b| - 1])
  }

  /**
   * The filter keeps exactly the displayable nodes: its result is a
   * subsequence of the input, every kept node is displayable and every
   * displayable node is kept.
   */
  lemma {:induction false} ShownFacts(nodes: seq<PlanNode>, display: (PlanNode, ProgramContext) -> bool, ctx: ProgramContext)
    ensures Subsequence(Shown(nodes, display, ctx), nodes)
    ensures forall n :: n in Shown(nodes, display, ctx) ==> n in nodes && display(n, ctx)
    ensures forall n :: n in nodes && display(n, ctx) ==> n in Shown(nodes, display, ctx)
    decreases |nodes|
  {
    if nodes != [] {
      var init := nodes[..|nodes| - 1];
      ShownFacts(init, display, ctx);
      assert nodes == init + [nodes[|nodes| - 1]];
      var r := Shown(nodes, display, ctx);
      if display(nodes[|nodes| - 1], ctx) {
        assert r[..|r| - 1] == Shown(init, display, ctx);
      }
    }
  }

  /** A displayable node is kept as many times as the input holds it; any other node not at all. */
  lemma {:induction false} ShownMultiplicity(nodes: seq<PlanNode>, display: (PlanNode, ProgramContext) -> bool, ctx: ProgramContext)
    ensures forall n :: multiset(Shown(nodes, display, ctx))[n] == if display(n, ctx) then multiset(nodes)[n] else 0
    decreases |nodes|
  {
    if nodes != [] {
      var init := nodes[..|nodes| - 1];
      var last := nodes[|nodes| - 1];
      ShownMultiplicity(init, display, ctx);
      assert nodes == init + [last];
      assert multiset(nodes) == multiset(init) + multiset{last};
      if display(last, ctx) {
        assert multiset(Shown(nodes, display, ctx)) == multiset(Shown(init, display, ctx)) + multiset{last};
      }
    }
  }

  /** Filtering a filtered list changes nothing. */
  lemma {:induction false} ShownIdempotent(nodes: seq<PlanNode>, display: (PlanNode, ProgramContext) -> bool, ctx: ProgramContext)
    ensures Shown(Shown(nodes, display, ctx), display, ctx) == Shown(nodes, display, ctx)
    decreases |nodes|
  {
    if nodes != [] {
      var init := nodes[..|nodes| - 1];
      ShownIdempotent(init, display, ctx);
      var r := Shown(nodes, display, ctx);
      if display(nodes[|nodes| - 1], ctx) {
        assert r[..|r| - 1] == Shown(init, display, ctx);
      }
    }
  }

  /** `displayedNodes`: the loop that appends every displayable node. */
  method DisplayedNodes(nodes: seq<PlanNode>, display: (PlanNode, ProgramContext) -> bool, ctx: ProgramContext)
    returns (r: seq<PlanNode>)
    ensures r == Shown(nodes, display, ctx)
  {
    r := [];
    for i := 0 to |nodes|
      invariant r == Shown(nodes[..i], display, ctx)
    {
      assert nodes[..i + 1][..i] == nodes[..i];
      if display(nodes[i], ctx) {
        r := r + [nodes[i]];
      }
    }
    assert nodes[..|nodes|] == nodes;
  }

  // ---------------------------------------------------------------------
  // Keys and the model they update
  // ---------------------------------------------------------------------

  /** The key bindings `Update` tells apart; `Unbound` is any other key. */
  datatype Key =
    | QuitKey | IndentToggleKey | UpKey | DownKey | SettingsUpKey | SettingsDownKey
    | ToggleSettingsTypeKey | ToggleSettingsKey | HelpKey | JoinViewKey
    | ToggleRowsKey | ToggleBuffersKey | ToggleCostKey | ToggleTimesKey
    | NextStatDisplayKey | PrevStatDisplayKey | ToggleParallelKey | ToggleDisplaySqlKey
    | ReExecuteKey | PrevQueryRunKey | NextQueryRunKey | SqlUpKey | SqlDownKey | Unbound

  /** The command `Update` hands back to the program loop. */
  datatype Command = NoCommand | QuitProgram | ExecuteQuery | LoadPreviousRun | LoadNextRun | PrintKey

  /** The command each key returns. */
  function CommandFor(key: Key): Command
  {
    match key
    case QuitKey => QuitProgram
    case ReExecuteKey => ExecuteQuery
    case PrevQueryRunKey => LoadPreviousRun
    case NextQueryRunKey => LoadNextRun
    case Unbound => PrintKey
    case _ => NoCommand
  }

  /** What the key branches read and write: the context, the help flag and the displayed nodes. */
  datatype Screen = Screen(ctx: ProgramContext, showHelp: bool, displayNodes: seq<PlanNode>)

  /** The cursor lies within the displayed nodes, or just past them (the empty list). */
  predicate CursorInRange(s: Screen)
  {
    0 <= s.ctx.cursor <= |s.displayNodes|
  }

  /** Indent, ToggleSettingsType, ToggleSettings, Help, ToggleParallel, DisplaySql: the key's flag flips. */
  function FlagStep(s: Screen, key: Key): (r: Screen)
    ensures r.ctx.cursor == s.ctx.cursor && r.ctx.analyzed == s.ctx.analyzed && r.displayNodes == s.displayNodes
  {
    var c := s.ctx;
    match key
    case IndentToggleKey => s.(ctx := c.(indent := !c.indent))
    case ToggleSettingsTypeKey => s.(ctx := c.(displayNextSettings := !c.displayNextSettings))
    case ToggleSettingsKey => s.(ctx := c.(displaySettings := !c.displaySettings))
    case HelpKey => s.(showHelp := !s.showHelp)
    case ToggleParallelKey => s.(ctx := c.(displayParallel := !c.displayParallel))
    case ToggleDisplaySqlKey => s.(ctx := c.(displaySql := !c.displaySql))
    case _ => s
  }

  /** Up, Down, SettingsUp, SettingsDown, for `settingsCount` next-run settings. */
  function MoveStep(s: Screen, key: Key, settingsCount: int): (r: Screen)
    requires CursorInRange(s)
    ensures CursorInRange(r) && r.ctx.analyzed == s.ctx.analyzed && r.displayNodes == s.displayNodes
  {
    var c := s.ctx;
    match key
    case UpKey =>
      if c.cursor - 1 >= 0 then s.(ctx := c.(cursor := c.cursor - 1, selectedNode := s.displayNodes[c.cursor - 1]))
      else s
    case DownKey =>
      if c.cursor + 1 < |s.displayNodes| then s.(ctx := c.(cursor := c.cursor + 1, selectedNode := s.displayNodes[c.cursor + 1]))
      else s
    case SettingsUpKey =>
      if c.settingsCursor - 1 >= 0 then s.(ctx := c.(settingsCursor := c.settingsCursor - 1)) else s
    case SettingsDownKey =>
      if c.settingsCursor + 1 < settingsCount then s.(ctx := c.(settingsCursor := c.settingsCursor + 1)) else s
    case _ => s
  }

  /** The four stat toggle keys. */
  predicate ToggleKey(key: Key)
  {
    key.ToggleRowsKey? || key.ToggleBuffersKey? || key.ToggleCostKey? || key.ToggleTimesKey?
  }

  /** The view a stat toggle key shows. */
  function ToggleView(key: Key): StatView
  {
    if key.ToggleRowsKey? then DisplayRows
    else if key.ToggleBuffersKey? then DisplayBuffers
    else if key.ToggleCostKey? then DisplayCost
    else DisplayTime
  }

  /** The statistic view after a stat toggle or NextStatDisplay/PrevStatDisplay. */
  function StatAfter(c: ProgramContext, key: Key): StatView
  {
    if ToggleKey(key) then Toggled(c.statDisplay, ToggleView(key))
    else if key.NextStatDisplayKey? then NextStat(c.statDisplay, c.analyzed)
    else if key.PrevStatDisplayKey? then PrevStat(c.statDisplay, c.analyzed)
    else c.statDisplay
  }

  /** The stat toggles and NextStatDisplay/PrevStatDisplay: only the statistic view changes. */
  function StatStep(s: Screen, key: Key): (r: Screen)
    ensures r == s.(ctx := s.ctx.(statDisplay := r.ctx.statDisplay))
  {
    s.(ctx := s.ctx.(statDisplay := StatAfter(s.ctx, key)))
  }

  /**
   * JoinView: the flag flips, the plan's `nodes` are refiltered under the
   * flipped context and the cursor goes to the first of them.
   */
  function JoinStep(s: Screen, nodes: seq<PlanNode>, display: (PlanNode, ProgramContext) -> bool,
                    emptyNode: PlanNode): (r: Screen)
    ensures CursorInRange(r) && r.ctx.cursor == 0 && r.ctx.analyzed == s.ctx.analyzed
    ensures r.ctx.joinView == !s.ctx.joinView && r.showHelp == s.showHelp
  {
    var flipped := s.ctx.(joinView := !s.ctx.joinView);
    var shown := Shown(nodes, display, flipped);
    Screen(flipped.(cursor := 0, selectedNode := if shown == [] then emptyNode else shown[0]), s.showHelp, shown)
  }

  /**
   * The screen after one key press of `Update`, for a plan whose nodes are
   * `nodes`, the display predicate `display`, `settingsCount` next-run
   * settings and the empty node `emptyNode`.  The keys that hand a command
   * back, SqlUp and SqlDown leave the screen as it was.
   */
  function KeyStep(s: Screen, key: Key, nodes: seq<PlanNode>, display: (PlanNode, ProgramContext) -> bool,
                   settingsCount: int, emptyNode: PlanNode): (r: Screen)
    requires CursorInRange(s)
    ensures CursorInRange(r) && r.ctx.analyzed == s.ctx.analyzed
    ensures !key.JoinViewKey? ==> r.displayNodes == s.displayNodes
    ensures CommandFor(key) != NoCommand || key.SqlUpKey? || key.SqlDownKey? ==> r == s
  {
    if FlagKey(key) then FlagStep(s, key)
    else if MoveKey(key) then MoveStep(s, key, settingsCount)
    else if StatKey(key) then StatStep(s, key)
    else if key.JoinViewKey? then JoinStep(s, nodes, display, emptyNode)
    else s
  }

  /** The keys that flip one display flag. */
  predicate FlagKey(key: Key)
  {
    || key.IndentToggleKey? || key.ToggleSettingsTypeKey? || key.ToggleSettingsKey?
    || key.HelpKey? || key.ToggleParallelKey? || key.ToggleDisplaySqlKey?
  }

  /** The keys that move one of the two cursors. */
  predicate MoveKey(key: Key)
  {
    key.UpKey? || key.DownKey? || key.SettingsUpKey? || key.SettingsDownKey?
  }

  /** The keys that change the statistic view. */
  predicate StatKey(key: Key)
  {
    ToggleKey(key) || key.NextStatDisplayKey? || key.PrevStatDisplayKey?
  }

  /** On a key of none of the groups, `KeyStep` leaves the screen alone. */
  lemma KeyStepIdle(s: Screen, key: Key, nodes: seq<PlanNode>, display: (PlanNode, ProgramContext) -> bool,
                    settingsCount: int, emptyNode: PlanNode)
    requires CursorInRange(s)
    requires !FlagKey(key) && !MoveKey(key) && !StatKey(key) && !key.JoinViewKey?
    ensures KeyStep(s, key, nodes, display, settingsCount, emptyNode) == s
  {
  }

  /** On a flag key, `KeyStep` is `FlagStep`. */
  lemma KeyStepFlag(s: Screen, key: Key, nodes: seq<PlanNode>, display: (PlanNode, ProgramContext) -> bool,
                    settingsCount: int, emptyNode: PlanNode)
    requires CursorInRange(s) && FlagKey(key)
    ensures KeyStep(s, key, nodes, display, settingsCount, emptyNode) == FlagStep(s, key)
  {
  }

  /** On a move key, `KeyStep` is `MoveStep`. */
  lemma KeyStepMove(s: Screen, key: Key, nodes: seq<PlanNode>, display: (PlanNode, ProgramContext) -> bool,
                    settingsCount: int, emptyNode: PlanNode)
    requires CursorInRange(s) && MoveKey(key)
    ensures KeyStep(s, key, nodes, display, settingsCount, emptyNode) == MoveStep(s, key, settingsCount)
  {
  }

  /** On a stat key, `KeyStep` changes only the statistic view, to `StatAfter`. */
  lemma KeyStepStat(s: Screen, key: Key, nodes: seq<PlanNode>, display: (PlanNode, ProgramContext) -> bool,
                    settingsCount: int, emptyNode: PlanNode)
    requires CursorInRange(s) && StatKey(key)
    ensures KeyStep(s, key, nodes, display, settingsCount, emptyNode) == s.(ctx := s.ctx.(statDisplay := StatAfter(s.ctx, key)))
  {
  }

  /** On JoinView, `KeyStep` flips the join view, refilters the plan's nodes and selects the first. */
  lemma KeyStepJoin(s: Screen, nodes: seq<PlanNode>, display: (PlanNode, ProgramContext) -> bool,
                    settingsCount: int, emptyNode: PlanNode)
    requires CursorInRange(s)
    ensures var shown := Shown(nodes, display, s.ctx.(joinView := !s.ctx.joinView));
      KeyStep(s, JoinViewKey, nodes, display, settingsCount, emptyNode) ==
        Screen(s.ctx.(joinView := !s.ctx.joinView, cursor := 0, selectedNode := if shown == [] then emptyNode else shown[0]),
               s.showHelp, shown)
  {
  }

  /** Pressing a flag key twice gives the screen back. */
  lemma FlagKeyTwice(s: Screen, key: Key, nodes: seq<PlanNode>, display: (PlanNode, ProgramContext) -> bool,
                     settingsCount: int, emptyNode: PlanNode)
    requires CursorInRange(s) && FlagKey(key)
    ensures KeyStep(KeyStep(s, key, nodes, display, settingsCount, emptyNode), key, nodes, display, settingsCount, emptyNode) == s
  {
    KeyStepFlag(s, key, nodes, display, settingsCount, emptyNode);
    KeyStepFlag(FlagStep(s, key), key, nodes, display, settingsCount, emptyNode);
  }

  /**
   * Up after Down comes back to the node it started from whenever the
   * move down happened and the selection was the node under the cursor.
   */
  lemma DownThenUp(s: Screen, nodes: seq<PlanNode>, display: (PlanNode, ProgramContext) -> bool,
                   settingsCount: int, emptyNode: PlanNode)
    requires 0 <= s.ctx.cursor && s.ctx.cursor + 1 < |s.displayNodes| && s.ctx.selectedNode == s.displayNodes[s.ctx.cursor]
    ensures KeyStep(KeyStep(s, DownKey, nodes, display, settingsCount, emptyNode), UpKey, nodes, display, settingsCount, emptyNode) == s
  {
    var c := s.ctx;
    KeyStepMove(s, DownKey, nodes, display, settingsCount, emptyNode);
    var d := MoveStep(s, DownKey, settingsCount);
    assert d.ctx == c.(cursor := c.cursor + 1, selectedNode := s.displayNodes[c.cursor + 1]);
    KeyStepMove(d, UpKey, nodes, display, settingsCount, emptyNode);
    assert d.ctx.(cursor := c.cursor, selectedNode := s.displayNodes[c.cursor]) == c;
  }

  /**
   * Down after Up comes back to the node it started from whenever the
   * move up happened and the selection was the node under the cursor.
   */
  lemma UpThenDown(s: Screen, nodes: seq<PlanNode>, display: (PlanNode, ProgramContext) -> bool,
                   settingsCount: int, emptyNode: PlanNode)
    requires 0 < s.ctx.cursor < |s.displayNodes| && s.ctx.selectedNode == s.displayNodes[s.ctx.cursor]
    ensures KeyStep(KeyStep(s, UpKey, nodes, display, settingsCount, emptyNode), DownKey, nodes, display, settingsCount, emptyNode) == s
  {
    var c := s.ctx;
    KeyStepMove(s, UpKey, nodes, display, settingsCount, emptyNode);
    var u := MoveStep(s, UpKey, settingsCount);
    assert u.ctx == c.(cursor := c.cursor - 1, selectedNode := s.displayNodes[c.cursor - 1]);
    KeyStepMove(u, DownKey, nodes, display, settingsCount, emptyNode);
    assert u.ctx.(cursor := c.cursor, selectedNode := s.displayNodes[c.cursor]) == c;
  }

  /** SettingsUp after SettingsDown comes back whenever the move down happened. */
  lemma SettingsDownThenUp(s: Screen, nodes: seq<PlanNode>, display: (PlanNode, ProgramContext) -> bool,
                           settingsCount: int, emptyNode: PlanNode)
    requires CursorInRange(s) && 0 <= s.ctx.settingsCursor && s.ctx.settingsCursor + 1 < settingsCount
    ensures KeyStep(KeyStep(s, SettingsDownKey, nodes, display, settingsCount, emptyNode), SettingsUpKey, nodes, display, settingsCount, emptyNode) == s
  {
    var c := s.ctx;
    KeyStepMove(s, SettingsDownKey, nodes, display, settingsCount, emptyNode);
    var d := MoveStep(s, SettingsDownKey, settingsCount);
    assert d == s.(ctx := c.(settingsCursor := c.settingsCursor + 1));
    KeyStepMove(d, SettingsUpKey, nodes, display, settingsCount, emptyNode);
  }

  /** SettingsDown after SettingsUp comes back whenever the move up happened. */
  lemma SettingsUpThenDown(s: Screen, nodes: seq<PlanNode>, display: (PlanNode, ProgramContext) -> bool,
                           settingsCount: int, emptyNode: PlanNode)
    requires CursorInRange(s) && 0 < s.ctx.settingsCursor < settingsCount
    ensures KeyStep(KeyStep(s, SettingsUpKey, nodes, display, settingsCount, emptyNode), SettingsDownKey, nodes, display, settingsCount, emptyNode) == s
  {
    var c := s.ctx;
    KeyStepMove(s, SettingsUpKey, nodes, display, settingsCount, emptyNode);
    var u := MoveStep(s, SettingsUpKey, settingsCount);
    assert u == s.(ctx := c.(settingsCursor := c.settingsCursor - 1));
    KeyStepMove(u, SettingsDownKey, nodes, display, settingsCount, emptyNode);
  }

  /** A stat toggle pressed twice gives the screen back exactly when its view or nothing was shown. */
  lemma StatToggleTwice(s: Screen, key: Key, nodes: seq<PlanNode>, display: (PlanNode, ProgramContext) -> bool,
                        settingsCount: int, emptyNode: PlanNode)
    requires CursorInRange(s) && ToggleKey(key)
    ensures KeyStep(KeyStep(s, key, nodes, display, settingsCount, emptyNode), key, nodes, display, settingsCount, emptyNode) == s
      <==> (s.ctx.statDisplay == ToggleView(key) || s.ctx.statDisplay == DisplayNothing)
  {
    var once := s.(ctx := s.ctx.(statDisplay := StatAfter(s.ctx, key)));
    KeyStepStat(s, key, nodes, display, settingsCount, emptyNode);
    KeyStepStat(once, key, nodes, display, settingsCount, emptyNode);
    var twice := once.(ctx := once.ctx.(statDisplay := StatAfter(once.ctx, key)));
    assert twice == s <==> twice.ctx.statDisplay == s.ctx.statDisplay;
  }

  /** PrevStatDisplay after NextStatDisplay gives the screen back on every reachable view. */
  lemma NextThenPrevStat(s: Screen, nodes: seq<PlanNode>, display: (PlanNode, ProgramContext) -> bool,
                         settingsCount: int, emptyNode: PlanNode)
    requires CursorInRange(s)
    requires s.ctx.analyzed || Basic(s.ctx.statDisplay)
    ensures KeyStep(KeyStep(s, NextStatDisplayKey, nodes, display, settingsCount, emptyNode), PrevStatDisplayKey, nodes, display, settingsCount, emptyNode) == s
  {
    StatRoundTrip(s.ctx.statDisplay, s.ctx.analyzed);
    var next := s.(ctx := s.ctx.(statDisplay := NextStat(s.ctx.statDisplay, s.ctx.analyzed)));
    KeyStepStat(s, NextStatDisplayKey, nodes, display, settingsCount, emptyNode);
    KeyStepStat(next, PrevStatDisplayKey, nodes, display, settingsCount, emptyNode);
  }

  /** NextStatDisplay after PrevStatDisplay gives the screen back on every reachable view. */
  lemma PrevThenNextStat(s: Screen, nodes: seq<PlanNode>, display: (PlanNode, ProgramContext) -> bool,
                         settingsCount: int, emptyNode: PlanNode)
    requires CursorInRange(s)
    requires s.ctx.analyzed || Basic(s.ctx.statDisplay)
    ensures KeyStep(KeyStep(s, PrevStatDisplayKey, nodes, display, settingsCount, emptyNode), NextStatDisplayKey, nodes, display, settingsCount, emptyNode) == s
  {
    StatRoundTrip(s.ctx.statDisplay, s.ctx.analyzed);
    var prev := s.(ctx := s.ctx.(statDisplay := PrevStat(s.ctx.statDisplay, s.ctx.analyzed)));
    KeyStepStat(s, PrevStatDisplayKey, nodes, display, settingsCount, emptyNode);
    KeyStepStat(prev, NextStatDisplayKey, nodes, display, settingsCount, emptyNode);
  }

  /** The part of Go's `Model` that the key branches read and write. */
  class Model {
    /** `PlanNode.Display(ctx)`, whose definition is not part of this model. */
    const display: (PlanNode, ProgramContext) -> bool
    /** Go's zero value `PlanNode{}`, selected when nothing is displayed. */
    const emptyNode: PlanNode
    var nodes: seq<PlanNode>
    var ctx: ProgramContext
    var displayNodes: seq<PlanNode>
    var nextRunSettings: seq<Setting>
    var showHelp: bool

    /** The screen the key branches act on. */
    function Snapshot(): Screen
      reads this`ctx, this`showHelp, this`displayNodes
    {
      Screen(ctx, showHelp, displayNodes)
    }

    /**
     * The cursor points into the displayed nodes (or is 0 when none is
     * displayed), the selected node is the one under it (the empty node when
     * none is displayed), and the settings cursor points into the next-run
     * settings (or is 0 when there are none).
     */
    predicate Valid()
      reads this`ctx, this`displayNodes, this`nextRunSettings
    {
      && 0 <= ctx.cursor && (ctx.cursor < |displayNodes| || (ctx.cursor == 0 && displayNodes == []))
      && (0 <= ctx.cursor < |displayNodes| ==> ctx.selectedNode == displayNodes[ctx.cursor])
      && (displayNodes == [] ==> ctx.selectedNode == emptyNode)
      && 0 <= ctx.settingsCursor && (ctx.settingsCursor < |nextRunSettings| || ctx.settingsCursor == 0)
    }

    /**
     * A model showing `plan`: the start-up context of `InitProgramContext`
     * (indented tree, full view, no statistic), then the displayed nodes
     * computed as `UpdateModel` does, with the cursor on the first one.
     */
    constructor (display: (PlanNode, ProgramContext) -> bool, plan: ExplainPlan, nextRunSettings: seq<Setting>)
      ensures this.display == display && nodes == plan.nodes && this.nextRunSettings == nextRunSettings
      ensures ctx == ProgramContext(true, 0, 0, false, DisplayNothing, plan.analyzed, ctx.selectedNode,
                                    false, false, false, false)
      ensures displayNodes == Shown(plan.nodes, display, ctx.(selectedNode := emptyNode))
      ensures ctx.selectedNode == if displayNodes == [] then emptyNode else displayNodes[0]
      ensures !showHelp && emptyNode == EmptyPlanNode
      ensures Valid()
    {
      var start := ProgramContext(true, 0, 0, false, DisplayNothing, plan.analyzed, EmptyPlanNode,
                                  false, false, false, false);
      var inner := DisplayedNodes(plan.nodes, display, start);
      var shown := DisplayedNodes(inner, display, start);
      ShownIdempotent(plan.nodes, display, start);
      this.display := display;
      emptyNode := EmptyPlanNode;
      nodes := plan.nodes;
      displayNodes := shown;
      this.nextRunSettings := nextRunSettings;
      showHelp := false;
      ctx := start.(selectedNode := if |shown| > 0 then shown[0] else EmptyPlanNode);
    }

    /** Up: one node up when there is one, selecting it; otherwise nothing changes. */
    method MoveUp()
      requires Valid()
      modifies this`ctx
      ensures Snapshot() == MoveStep(old(Snapshot()), UpKey, |nextRunSettings|)
      ensures Valid()
    {
      if ctx.cursor - 1 >= 0 {
        ctx := ctx.(cursor := ctx.cursor - 1);
        ctx := ctx.(selectedNode := displayNodes[ctx.cursor]);
      }
    }

    /** Down: one node down when there is one, selecting it; otherwise nothing changes. */
    method MoveDown()
      requires Valid()
      modifies this`ctx
      ensures Snapshot() == MoveStep(old(Snapshot()), DownKey, |nextRunSettings|)
      ensures Valid()
    {
      if ctx.cursor + 1 < |displayNodes| {
        ctx := ctx.(cursor := ctx.cursor + 1);
        ctx := ctx.(selectedNode := displayNodes[ctx.cursor]);
      }
    }

    /** SettingsUp: the settings cursor one up, unless it is at the top. */
    method SettingsCursorUp()
      requires Valid()
      modifies this`ctx
      ensures Snapshot() == MoveStep(old(Snapshot()), SettingsUpKey, |nextRunSettings|)
      ensures Valid()
    {
      if ctx.settingsCursor - 1 >= 0 {
        ctx := ctx.(settingsCursor := ctx.settingsCursor - 1);
      }
    }

    /** SettingsDown: the settings cursor one down, unless it is at the last setting. */
    method SettingsCursorDown()
      requires Valid()
      modifies this`ctx
      ensures Snapshot() == MoveStep(old(Snapshot()), SettingsDownKey, |nextRunSettings|)
      ensures Valid()
    {
      if ctx.settingsCursor + 1 < |nextRunSettings| {
        ctx := ctx.(settingsCursor := ctx.settingsCursor + 1);
      }
    }

    /**
     * JoinView: flip the join view, refilter all nodes under the flipped
     * context (the source filters twice, which changes nothing), and put the
     * cursor on the first displayed node.
     */
    method SwitchJoinView()
      requires Valid()
      modifies this`ctx, this`displayNodes
      ensures displayNodes == Shown(nodes, display, old(ctx).(joinView := !old(ctx.joinView)))
      ensures ctx == old(ctx).(joinView := !old(ctx.joinView), cursor := 0,
                               selectedNode := if displayNodes == [] then emptyNode else displayNodes[0])
      ensures Valid()
    {
      var flipped := ctx.(joinView := !ctx.joinView);
      var inner := DisplayedNodes(nodes, display, flipped);
      var shown := DisplayedNodes(inner, display, flipped);
      ShownIdempotent(nodes, display, flipped);
      displayNodes := shown;
      var selected := if |shown| > 0 then shown[0] else emptyNode;
      ctx := flipped.(cursor := 0, selectedNode := selected);
    }

    /** ToggleRows, ToggleBuffers, ToggleCost, ToggleTimes: show `view`, or nothing if it is shown. */
    method ToggleStat(view: StatView)
      requires Valid()
      modifies this`ctx
      ensures ctx == old(ctx).(statDisplay := Toggled(old(ctx.statDisplay), view))
      ensures Valid()
    {
      if ctx.statDisplay == view {
        ctx := ctx.(statDisplay := DisplayNothing);
      } else {
        ctx := ctx.(statDisplay := view);
      }
    }

    /** NextStatDisplay and PrevStatDisplay: cycle the statistic view. */
    method CycleStat(forward: bool)
      requires Valid()
      modifies this`ctx
      ensures ctx == old(ctx).(statDisplay := if forward then NextStat(old(ctx.statDisplay), ctx.analyzed)
                                              else PrevStat(old(ctx.statDisplay), ctx.analyzed))
      ensures Valid()
    {
      if forward {
        var next := NextStatDisplay(ctx.statDisplay, ctx.analyzed);
        ctx := ctx.(statDisplay := next);
      } else {
        var prev := PrevStatDisplay(ctx.statDisplay, ctx.analyzed);
        ctx := ctx.(statDisplay := prev);
      }
    }

    /** Indent, ToggleSettingsType, ToggleSettings, Help, ToggleParallel, DisplaySql: flip that key's flag. */
    method PressFlag(key: Key)
      requires Valid() && FlagKey(key)
      modifies this`ctx, this`showHelp
      ensures Snapshot() == FlagStep(old(Snapshot()), key)
      ensures Valid()
    {
      match key {
        case IndentToggleKey => ctx := ctx.(indent := !ctx.indent);
        case ToggleSettingsTypeKey => ctx := ctx.(displayNextSettings := !ctx.displayNextSettings);
        case ToggleSettingsKey => ctx := ctx.(displaySettings := !ctx.displaySettings);
        case HelpKey => showHelp := !showHelp;
        case ToggleParallelKey => ctx := ctx.(displayParallel := !ctx.displayParallel);
        case ToggleDisplaySqlKey => ctx := ctx.(displaySql := !ctx.displaySql);
      }
    }

    /** Up, Down, SettingsUp, SettingsDown. */
    method PressMove(key: Key)
      requires Valid() && MoveKey(key)
      modifies this`ctx
      ensures Snapshot() == MoveStep(old(Snapshot()), key, |nextRunSettings|)
      ensures key.UpKey? || key.DownKey? ==> ctx.settingsCursor == old(ctx.settingsCursor)
      ensures key.SettingsUpKey? || key.SettingsDownKey? ==>
        ctx.cursor == old(ctx.cursor) && ctx.selectedNode == old(ctx.selectedNode)
      ensures key.UpKey? ==>
        && ctx.cursor == (if old(ctx.cursor) - 1 >= 0 then old(ctx.cursor) - 1 else old(ctx.cursor))
        && ctx.selectedNode == (if old(ctx.cursor) - 1 >= 0 then displayNodes[ctx.cursor] else old(ctx.selectedNode))
      ensures key.DownKey? ==>
        && ctx.cursor == (if old(ctx.cursor) + 1 < |displayNodes| then old(ctx.cursor) + 1 else old(ctx.cursor))
        && ctx.selectedNode == (if old(ctx.cursor) + 1 < |displayNodes| then displayNodes[ctx.cursor] else old(ctx.selectedNode))
      ensures key.SettingsUpKey? ==>
        ctx.settingsCursor == (if old(ctx.settingsCursor) - 1 >= 0 then old(ctx.settingsCursor) - 1 else old(ctx.settingsCursor))
      ensures key.SettingsDownKey? ==>
        ctx.settingsCursor ==
          (if old(ctx.settingsCursor) + 1 < |nextRunSettings| then old(ctx.settingsCursor) + 1 else old(ctx.settingsCursor))
      ensures Valid()
    {
      match key {
        case UpKey => MoveUp();
        case DownKey => MoveDown();
        case SettingsUpKey => SettingsCursorUp();
        case SettingsDownKey => SettingsCursorDown();
      }
    }

    /** ToggleRows, ToggleBuffers, ToggleCost, ToggleTimes, NextStatDisplay, PrevStatDisplay. */
    method PressStat(key: Key)
      requires Valid() && StatKey(key)
      modifies this`ctx
      ensures ctx == old(ctx).(statDisplay := StatAfter(old(ctx), key))
      ensures Valid()
    {
      if ToggleKey(key) {
        ToggleStat(ToggleView(key));
      } else {
        CycleStat(key.NextStatDisplayKey?);
      }
    }

    /**
     * A key of the switch that hands no command back: the screen becomes
     * `KeyStep` of the old one.
     */
    method PressKey(key: Key)
      requires Valid() && CommandFor(key) == NoCommand
      modifies this`ctx, this`showHelp, this`displayNodes
      ensures Snapshot() == KeyStep(old(Snapshot()), key, nodes, display, |nextRunSettings|, emptyNode)
      ensures Valid()
    {
      ghost var before := Snapshot();
      if FlagKey(key) {
        PressFlag(key);
        KeyStepFlag(before, key, nodes, display, |nextRunSettings|, emptyNode);
      } else if MoveKey(key) {
        PressMove(key);
        KeyStepMove(before, key, nodes, display, |nextRunSettings|, emptyNode);
      } else if StatKey(key) {
        PressStat(key);
        KeyStepStat(before, key, nodes, display, |nextRunSettings|, emptyNode);
      } else if key.JoinViewKey? {
        SwitchJoinView();
        KeyStepJoin(before, nodes, display, |nextRunSettings|, emptyNode);
      } else {
        KeyStepIdle(before, key, nodes, display, |nextRunSettings|, emptyNode);
      }
    }

    /**
     * One key press: the screen becomes `KeyStep` of the old one, and the
     * model stays valid.  The plan and the next-run settings are outside
     * the frame.  The keys that hand a command back leave the screen alone;
     * SqlUp and SqlDown only scroll the SQL viewport, which is not part of
     * this model, so they change nothing either.
     */
    method Update(key: Key) returns (cmd: Command)
      requires Valid()
      modifies this`ctx, this`showHelp, this`displayNodes
      ensures cmd == CommandFor(key)
      ensures Snapshot() == KeyStep(old(Snapshot()), key, nodes, display, |nextRunSettings|, emptyNode)
      ensures cmd != NoCommand || key.SqlUpKey? || key.SqlDownKey? ==> unchanged(this`ctx, this`showHelp, this`displayNodes)
      ensures !key.JoinViewKey? ==> unchanged(this`displayNodes)
      ensures Valid()
    {
      cmd := CommandFor(key);
      if cmd == NoCommand {
        PressKey(key);
      }
    }
  }
}
