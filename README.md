# display-nodes: a verified model of the plan flattener and its session files

display-nodes is a terminal viewer for PostgreSQL `EXPLAIN (FORMAT JSON)` output.
This project models its core in Dafny and proves properties of that model:

- **ExpJson** (`expjson.dfy`) and **PlanFacts** (`plan_facts.dfy`) model the flattener of
  `expjson.go`. It checks the decoded document's envelope, then walks the plan tree once,
  in pre-order, and emits one `PlanNode` record per plan object. Each record carries two
  addressings: its full-tree `Position` and its join-view position.
  - The walk shares an id counter and an output list. It is the `ParseState` class,
    whose methods bump the counter and append to the list in place.
  - `Flatten` is the recursive reference for that walk.
  - PlanFacts proves what the whole output list looks like: dense pre-order ids,
    parent/level links, the join-view collapse, the gather flags and the gating of the
    analyze and buffer fields.
- **JsonValue** (`json.dfy`) is the decoded JSON value tree. A missing key reads as
  JSON null, as Go's map index does.
- **Ui** (`ui.dfy`) models the viewer state of `ui.go`:
  - the display filter `displayedNodes`;
  - the cycling of the statistic view;
  - the key branches of `Model.Update` that move the cursors, flip the flags, switch the
    join view and toggle the statistic view.

  `Model` is a class whose methods change these fields.
- **Settings** (`setting.dfy`) covers `setting.go`:
  - the planner settings, with their display order and their `name=value` codec;
  - the `SET` statement;
  - stepping a value through its list of candidate values.
- **QueryRuns** (`query_run.dfy`) covers a session's `.pgex` file from `query_run.go`:
  - the writer `pgexFileContent` and the reader and splitter `loadQueryRun`, proved to
    round-trip;
  - the selection of the previous or next run among a directory's entries;
  - the file name a run is saved under;
  - the two EXPLAIN wrappers.
- **PlanViews** (`plannode.dfy`) is the small recursive text view of `plannode.go`.
- **Strings** (`strings.dfy`) and **Wrappers** (`wrappers.dfy`) hold the Go string
  functions used: `strings.Split`, `strings.Contains`, `path.Split` and trimming. They
  also hold `Option` and `Result`.

Modelling choices:
- A Go panic, or an `os.Exit` on malformed input, is a `Failure` value.
- A Go function that updates a struct through a pointer is a Dafny function or method
  that returns the new value: `IncrementSetting`, `DecrementSetting` and `SetResult`.
- File system access, the clock, the user's home directory and `PlanNode.Display` are
  parameters:
  - a file is read from a `map` from path to contents (`disk`);
  - the directory listing is `Option<seq<string>>`, where `None` is the failed `ReadDir`;
  - the timestamp and the home directory are strings;
  - `Display` is a predicate stored in the `Model` (`display`).

## Model

| member | source | states |
|---|---|---|
| ExpJson.DecodeJson | expjson.go:54-85 | Each envelope error: not an array, empty array (the index panic on `planJson[0]`), first element not an object, "Plan" missing or not an object. Otherwise it succeeds with that plan, reading only the first element. `analyzed` holds exactly when "Execution Time" is a number. |
| ExpJson.KeyList | expjson.go:169-191 | An absent or non-array key list gives the empty list. An array gives exactly its elements when all are strings, and a failure otherwise. |
| ExpJson.StringItems | expjson.go:172-174 | The list is read exactly when every item is a string, and then it is item for item the strings. |
| ExpJson.ExtractNodeFacts | expjson.go:88-307 | The node read from one plan object, field by field. It fails exactly when a required field, or an analyzed/buffer field under its flag, has the wrong type. The id is the bumped counter. Level and parent come from the parent position, and display is true. The join-view position is fresh exactly for joins, relations and gathers, and otherwise the parent's with display off. Workers are `+1` for a gather and 0 for anything else. The analyze record is zero unless analyzed, and the buffer counters are zero unless buffers are reported. |
| ExpJson.ExtractNodeFieldFacts | expjson.go:91-276 | On success the remaining fields are the plan object's values: "Partial Mode", "Parallel Aware", the two costs, the truncated "Plan Width", and the string fields (index name and condition, filter, hash condition, strategy, command, CTE, function, table function, TID condition, operation, join type, subplan name) read with "" when absent. With analyze data, the two actual times are read too. |
| ExpJson.ExtractNode | expjson.go:88-307 | Every failure while reading one node is a MalformedNode. |
| ExpJson.Flatten | expjson.go:87-336 | A failure of the subtree walk is always a MalformedNode. |
| ExpJson.FlattenPlans | expjson.go:322-333 | A failure reading "Plans" is always a MalformedNode. Nil means no children. |
| ExpJson.FlattenChild | expjson.go:323-331 | A failure on one "Plans" entry is always a MalformedNode. Null entries are skipped. |
| ExpJson.ChildrenPrefixFailure | expjson.go:322-333 | One failing child makes the whole child loop fail, whatever follows it. |
| ExpJson.ParseState.ExtractPlanNodes | expjson.go:87-336 | The walk succeeds exactly when `Flatten` does. On success it appended exactly `Flatten`'s nodes to the shared list, advanced the counter by their number, and returned the first one. |
| ExpJson.ParseState.ExtractBelow | expjson.go:322-333 | The children under "Plans" are walked exactly as `FlattenBelow` says: the same success, the same appended nodes and the same counter. |
| ExpJson.ParseState.ExtractChildren | expjson.go:322-333 | The `for` loop over the "Plans" array appends each child's subtree in order, and stops with failure exactly when `FlattenChildren` fails. |
| ExpJson.ParseState.ExtractChild | expjson.go:324-332 | One loop pass: a null entry appends nothing. An object appends its subtree. Anything else fails. |
| ExpJson.ReadNode | expjson.go:88-307 | Reading one plan object, including its three key-list loops, gives `ExtractNode`'s result. |
| ExpJson.CollectStrings | expjson.go:169-191 | The key-list loop returns `KeyList`. |
| ExpJson.Convert | expjson.go:34-52 | Convert is `Parse`: decode the envelope, then walk from the synthetic `{0,0,0}` parent with the analyze flag and the root's "Shared Read Blocks" flag. |
| PlanFacts.FlattenSubtree | expjson.go:206-207 | A successful walk emits one subtree. Its nodes take the ids after the counter, one each, in list order. Only its first node hangs below the outer parent, and every other node hangs below an earlier one. |
| PlanFacts.FlattenChildrenLinked | expjson.go:322-333 | The children's subtrees, appended in order, keep the list linked and the ids dense. |
| PlanFacts.RootedLinks | expjson.go:206-238 | In a whole flattened list, node k has id k+1. Node 0 is the root: level 1, parent 0, displayed. Every later node has an earlier parent, exactly one level up, and takes its flags from that parent. |
| PlanFacts.RootedBelowGather | expjson.go:313-320 | `belowGather` on a node is exactly "some proper ancestor is a gather" (false at the root). |
| PlanFacts.RootedJoinView | expjson.go:226-238 | A node's join-view id is its nearest significant ancestor-or-self, 0 if none. Its level counts the significant nodes at or above it. It is displayed exactly when the node is significant, and then its parent is the nearest significant proper ancestor. |
| PlanFacts.ParseRooted | expjson.go:34-52 | A parsed document's list is one rooted list with one node per non-null plan object. |
| PlanFacts.ParseShape | expjson.go:206-238 | Ids are 1..N in list order. The root is level 1 under parent 0. Every later node's parent is an earlier node, one level up. `parentIsNestedLoop` holds exactly when that parent is a "Nested Loop". |
| PlanFacts.ParseGating | expjson.go:273-307 | The analyze fields are all zero unless "Execution Time" is a number. The buffer and temp counters are zero unless the root plan has "Shared Read Blocks". Worker counts are zero on non-gathers. |
| PlanFacts.ParseTotalsUnanalyzed | expjson.go:17-23 | There is always a first node. Without analyze data, `TotalRows` and `TotalBuffers` are 0. |
| PlanFacts.ParseBelowGather | expjson.go:313-320 | For a parsed document, a node is below a gather exactly when some proper ancestor is a gather. |
| PlanFacts.ParseJoinView | expjson.go:226-238 | The join view of a parsed document, in terms of significant ancestors (joins, relations, gathers). |
| PlanFacts.ParseFirstElementOnly | expjson.go:64-70 | Elements after the first in the top-level array never change the result. |
| PlanFacts.ParseErrors | expjson.go:64-84 | Which error each malformed envelope gives. Once the envelope decodes, the only error is MalformedNode, and an unreadable root object gives it. |
| Ui.NextStatFacts | ui.go:502-515 | With analyze data the next view is `(s+1)%5`. Without it, the next view is the first basic view (Nothing, Rows or Cost) after `s`, reached within three steps. |
| Ui.PrevStatFacts | ui.go:483-500 | With analyze data the previous view is the one before, and 0 wraps to Cost. Without it, the previous view is the first basic view before `s`, within three steps. |
| Ui.StatRoundTrip | ui.go:483-515 | Next and previous undo each other on every view that can be reached. |
| Ui.NextStatDisplay | ui.go:502-515 | The `for true` loop terminates and returns `NextStat`. |
| Ui.PrevStatDisplay | ui.go:483-500 | The `for true` loop terminates and returns `PrevStat`. |
| Ui.Toggled | ui.go:361-384 | A stat key shows its own view unless that view is already shown, and then it shows nothing. Both directions are stated. |
| Ui.ShownFacts | ui.go:517-527 | The filter's result is a subsequence of the input. Every kept node is displayable, and every displayable node is kept. |
| Ui.ShownMultiplicity | ui.go:517-527 | A displayable node occurs in the filter's result exactly as often as in the input, and any other node not at all. |
| Ui.ShownIdempotent | ui.go:352-360 | Filtering an already filtered list changes nothing. This is the double filtering of JoinView. |
| Ui.DisplayedNodes | ui.go:517-527 | The append loop returns `Shown`. |
| Ui.FlagStep | ui.go:323-392 | A flag key flips only its flag. The cursor, the analyzed flag and the displayed nodes stay as they were. |
| Ui.MoveStep | ui.go:325-344 | A move keeps the cursor inside the displayed nodes. The analyzed flag and the displayed nodes stay as they were. |
| Ui.StatStep | ui.go:361-388 | A stat key changes the statistic view and nothing else on the screen. |
| Ui.JoinStep | ui.go:352-360 | JoinView flips the join view and puts the cursor at 0 inside the new list. The analyzed flag and the help flag stay as they were. |
| Ui.KeyStep | ui.go:318-404 | After any key the cursor is still inside the displayed nodes, and the analyzed flag is unchanged. Only JoinView changes the displayed nodes. Quit, ReExecute, PrevQueryRun, NextQueryRun, an unbound key, SqlUp and SqlDown leave the screen exactly as it was. |
| Ui.FlagKeyTwice | ui.go:323-392 | A flag key pressed twice gives the screen back. |
| Ui.DownThenUp | ui.go:325-334 | Up after Down gives the screen back whenever the move down happened and the selection was the node under the cursor. |
| Ui.UpThenDown | ui.go:325-334 | Down after Up gives the screen back whenever the move up happened and the selection was the node under the cursor. |
| Ui.SettingsDownThenUp | ui.go:335-344 | SettingsUp after SettingsDown gives the screen back whenever the move down happened. |
| Ui.SettingsUpThenDown | ui.go:335-344 | SettingsDown after SettingsUp gives the screen back whenever the move up happened. |
| Ui.StatToggleTwice | ui.go:361-384 | A stat toggle pressed twice gives the screen back exactly when its own view or nothing was shown. |
| Ui.NextThenPrevStat | ui.go:385-388 | PrevStatDisplay after NextStatDisplay gives the screen back on every view that can be reached. |
| Ui.PrevThenNextStat | ui.go:385-388 | NextStatDisplay after PrevStatDisplay gives the screen back on every view that can be reached. |
| Ui.Model.constructor | ui.go:177-206 | The start-up context: indented, full view, no statistic, cursors at 0. The displayed nodes are the filtered plan, with the first one selected (the empty node when none is shown). The model is valid. |
| Ui.Model.MoveUp | ui.go:325-329 | The screen becomes `MoveStep` for Up: the cursor moves one up and selects that node only when `cursor-1 >= 0`, and otherwise nothing changes. The model stays valid. |
| Ui.Model.MoveDown | ui.go:330-334 | The screen becomes `MoveStep` for Down: the cursor moves one down and selects that node only when `cursor+1 < len`, and otherwise nothing changes. The model stays valid. |
| Ui.Model.SettingsCursorUp | ui.go:335-339 | The screen becomes `MoveStep` for SettingsUp: the settings cursor moves up only when that stays ≥ 0. The model stays valid. |
| Ui.Model.SettingsCursorDown | ui.go:340-344 | The screen becomes `MoveStep` for SettingsDown: the settings cursor moves down only below the last setting. The model stays valid. |
| Ui.Model.SwitchJoinView | ui.go:352-360 | Flips the join view and refilters all nodes under the flipped context. The cursor goes to 0, and the first displayed node (or the empty node) is selected. |
| Ui.Model.ToggleStat | ui.go:361-384 | The context changes only in its statistic view, which becomes `Toggled(old, view)`. The model stays valid. |
| Ui.Model.CycleStat | ui.go:385-388 | The context changes only in its statistic view, which becomes `NextStat` or `PrevStat` of the old one. The model stays valid. |
| Ui.Model.PressFlag | ui.go:323-392 | The screen becomes `FlagStep` of the old one: each flag key flips exactly its own flag and no other. The model stays valid. |
| Ui.Model.PressMove | ui.go:325-344 | The screen becomes `MoveStep` of the old one. Up and Down move the cursor and select the node under it only when the move stays in range, and leave the settings cursor alone. SettingsUp and SettingsDown move the settings cursor only when it stays in range, and leave the cursor and the selection alone. |
| Ui.Model.PressStat | ui.go:361-388 | The context changes only in its statistic view, which becomes `StatAfter`: the toggle of the key's view, or `NextStat`/`PrevStat`. |
| Ui.Model.PressKey | ui.go:323-402 | On a key that hands no command back, the screen becomes `KeyStep` of the old one. The model stays valid. |
| Ui.Model.Update | ui.go:316-404 | The returned command is the key's: quit, re-execute, previous or next run, print for an unbound key, and none otherwise. The screen becomes `KeyStep` of the old one. The command keys, SqlUp and SqlDown leave the context, the help flag and the displayed nodes unchanged, and only JoinView changes the displayed nodes. The model stays valid. |
| Settings.FindPosition | setting.go:28-35 | The search loop returns the index where the name is listed, first match, or -1 exactly when the name is not listed. |
| Settings.SettingPositionsDistinct | setting.go:20-26 | The display order lists each name once. |
| Settings.SettingCompareOrder | setting.go:37-39 | The comparison is antisymmetric and zero exactly for equal or both-unknown names. Known names compare in display order, and unknown names sort first. |
| Settings.Sql | setting.go:41-43 | The text is exactly `SET `, the name, ` = '`, the value and `'`, checked piece by piece. |
| Settings.UnmarshalFacts | setting.go:49-52 | A line is refused exactly when it has no '='. Otherwise the name is the text before the first '=' and the value runs up to the next '=' or the end, both '='-free. |
| Settings.MarshalRoundTrip | setting.go:45-52 | Unmarshalling a marshalled setting gives it back when neither part holds '='. |
| Settings.UnmarshalDropsExtraPieces | setting.go:49-52 | `a=b=c` reads as `a` set to `b`. |
| Settings.SettingsValuesDistinct | setting.go:54-60 | Every value list in the table is free of repeats. |
| Settings.IncrementSetting | setting.go:62-72 | The search loop returns `Incremented`. |
| Settings.DecrementSetting | setting.go:74-84 | The search loop returns `Decremented`. |
| Settings.IncrementedFacts | setting.go:62-72 | The name never changes. When the value is at index i < len-1 of its list, it becomes entry i+1. Otherwise (last entry, off the list, unknown name) nothing changes. |
| Settings.DecrementedFacts | setting.go:74-84 | The mirror image: entry i-1 when i > 0, and otherwise unchanged. |
| Settings.IncrementThenDecrement | setting.go:54-84 | A step forward that moved the value is undone by a step back. |
| Settings.DecrementThenIncrement | setting.go:54-84 | A step back that moved the value is undone by a step forward. |
| QueryRuns.WithExplain | query_run.go:221-227 | The text is exactly the fixed `explain ( format json )` prefix followed by the query. |
| QueryRuns.WithExplainAnalyze | query_run.go:229-238 | The text is exactly the fixed `explain ( settings, format json, buffers, analyze )` prefix followed by the query. |
| QueryRuns.SetResult | query_run.go:167-169 | Only the result changes. |
| QueryRuns.PgexFileContent | query_run.go:203-219 | The builder loop writes each setting's `name=value` line, then a blank line, the settings/SQL divider, the query, the SQL/explain divider and the result, each framed by blank lines. |
| QueryRuns.ParseSettingsKept | query_run.go:102-113 | The settings part parses exactly when every non-blank line has '='. Then the result holds one setting per non-blank line, in order, each the unmarshalled line. |
| QueryRuns.ParseSettingsPrefixFails | query_run.go:108-113 | A malformed line makes the whole settings part fail, whatever follows it. |
| QueryRuns.ReadSettings | query_run.go:108-113 | The filtering loop returns `ParseSettings`. |
| QueryRuns.LoadNeedsDividers | query_run.go:94-100 | Contents without the settings/SQL divider, or without the SQL/explain divider, fail with those errors. |
| QueryRuns.LoadedPointer | query_run.go:120-122 | A loaded run's pointer is the base name of the file it was read from. Its original file name is empty. |
| QueryRuns.LoadPanicsPastDividerCheck | query_run.go:98-118 | A file holding both dividers, with the explain divider before the SQL divider, passes both checks. The SQL/plan split of the part after the SQL divider then has one piece, so the source's `sqlAbove[1]` is out of range. |
| QueryRuns.LoadQueryRunChecked | query_run.go:87-123 | The corrected loader never ends in the out-of-range index. Such input is reported as a missing SQL/explain divider, and on every other input it agrees with the loader as written. |
| QueryRuns.LoadFileRefusesMisplacedDivider | query_run.go:115-118 | Loading a listed file goes through the corrected loader: the file of the Finding is refused as missing its SQL/explain divider, where the source indexes past the split. |
| QueryRuns.SettingsRoundTrip | query_run.go:102-113 | Reading back the written settings block gives the settings when each is one `=`-free, newline-free line. |
| QueryRuns.SessionRoundTrip | query_run.go:87-123 | Loading the written file gives back the settings, `"\n\n"+query+"\n\n"` as SQL and `"\n\n"+result+"\n\n"` as plan. This holds when the settings are storable and neither divider occurs in the query or the result. The corrected loader agrees. |
| QueryRuns.CurrentIndexFacts | query_run.go:44-49 | The current index is the last entry containing the pointer, or 0 when none does. |
| QueryRuns.FindCurrentIndex | query_run.go:44-49 | The search loop returns `CurrentIndex`. |
| QueryRuns.PreviousIndex | query_run.go:44-55 | When there is a previous entry, the entry after it contains the pointer and no later one does. When there is none, no entry but the first contains the pointer. |
| QueryRuns.NextIndex | query_run.go:64-75 | A next entry is never the first, and neither it nor any later entry contains the pointer. When there is none, the listing is empty, has one entry, or its last entry contains the pointer. |
| QueryRuns.PreviousQueryRun | query_run.go:38-56 | A failed listing fails. Otherwise the entry before the current one is loaded through the corrected loader, or the run itself is returned when there is none. |
| QueryRuns.NextQueryRun | query_run.go:58-76 | A failed listing fails. Otherwise the entry after the current one is loaded through the corrected loader, or the run itself is returned when there is none. |
| QueryRuns.LoadFilePointer | query_run.go:87-123 | A run loaded from an entry points at that entry's base name. |
| QueryRuns.NextThenPrevious | query_run.go:38-76 | Going to the next run and then back returns to the run before it, when no later entry contains the new run's name. |
| QueryRuns.PreviousThenNext | query_run.go:38-76 | Going to the previous run and then forward returns to the run after it, under the same condition. |
| QueryRuns.ReplaceFirst | query_run.go:191 | Without an occurrence of the pattern the text is unchanged. Otherwise the first occurrence, and only it, is replaced. Every character of the result comes from the text or from the replacement. |
| QueryRuns.PgexFilenameShape | query_run.go:187-198 | The name is the timestamp, `_`, the base name up to its first '.', and `.pgex`. With a 14-digit timestamp and newline-free inputs it matches the `[0-9]{14}_.*\.pgex` entry filter. |
| PlanViews.ViewLeaf | plannode.go:15-19 | A leaf's view is its type and a newline. |
| PlanViews.ViewPrefix | plannode.go:15 | Every view begins with the node's type, then a newline. |
| PlanViews.ViewPreOrder | plannode.go:12-22 | The view is the pre-order list of node types, one per line. |
| PlanViews.TypesCount | plannode.go:12-22 | The pre-order list has one entry per node. |
| PlanViews.ViewLineCount | plannode.go:12-22 | When no type holds a newline, the view has exactly one newline per node of the tree. |
| Strings.ContainsIffSplits | query_run.go:94-102 | The text contains a separator exactly when splitting on it gives at least two pieces. |
| Strings.BaseName | query_run.go:120 | The base name is a '/'-free suffix of the path. |
| Strings.TrimSpacesNonEmpty | query_run.go:110 | A line trims to a non-empty text exactly when it has a character other than a space. |

## Left out

- JSON text decoding: `json.Unmarshal` and the `os.Exit` on a syntax error are library and process control. The model starts from a decoded `Json` value.
- Floating point: JSON numbers are `real`. Costs and times are passed through. `int(float64)` is modelled as truncation toward zero (`Trunc`), without float rounding or range limits.
- ExpJson.DecodeJson: the source's array check `!ok && len(planJson) != 1` lets arrays of any length through. An empty array panics at `planJson[0]`, and extra elements are ignored. The model keeps this rather than demanding exactly one element.
- Join-view collapse: a collapsed node's join-view id is its nearest significant ancestor's id, not its own. This is what the code does.
- ExpJson.ExtractNode: every type-assertion panic inside the plan tree is one error, `MalformedNode`. The order in which the fields are asserted is not modelled.
- `PlanNode.Display(ctx)` is not part of this model. It is the predicate parameter `display`.
- The `StatView` constants are not part of this model. Nothing=0, Rows=1, Buffers=2, Time=3, Cost=4 are chosen within 0..4.
- `ProgramContext`: only the fields the key branches use are modelled. `ResetContext` is not part of this model. The constructor takes the start-up context of `InitProgramContext` and selects the first displayed node.
- Ui.Model.Update: the viewport and layout work is left out:
  - `setSqlViewHeight`;
  - the viewports' `SetContent`;
  - SqlUp/SqlDown scrolling;
  - window resizing.

  The screen it acts on is the context, the help flag and the displayed nodes. The plan's nodes and the next-run settings lie outside its `modifies` frame.
- Ui: the `showAllMsg`, `executeQueryMsg`, `executeExplainQueryMsg`, `spinner.TickMsg` and previous/next-run message branches are left out. They are goroutines, channels and database work.
- Rendering is left out: `View`, `HeadersView`, `SettingsView`, the status line, lipgloss styles and number formatting.
- Settings.IncrementSetting, Settings.DecrementSetting: they update the setting through a pointer in place. The model returns the updated value instead.
- QueryRuns: file I/O is parameters:
  - `os.ReadFile` is a lookup in a `disk` map;
  - `ReadDir` in `getQueryRunEntries` is an `Option<seq<string>>` of entries, already filtered by the `[0-9]{14}_.*\.pgex` pattern and in directory order;
  - the `regexp` is the predicate `MatchesEntryPattern`.
- `WritePgexFile`: only the file's text (`PgexFileContent`) and its name (`PgexFilename`) are modelled. The write itself and the `pgexPointer` assignment are not.
- `PgexFilename`: `time.Now` and `user.Current` are the `timestamp` and `home` parameters.
- Not part of this model:
  - `NewQueryRun` (SQL splitting by an external library);
  - `latestQueryRun`;
  - `CreatePgexDir`;
  - `DisplayName`;
  - the database connection.
- `loadQueryRun` uses `ansi.StringWidth(strings.Trim(line, " ")) > 0` to skip blank lines. This is modelled as "the line trimmed of spaces is non-empty".
- QueryRuns.PreviousQueryRun, QueryRuns.NextQueryRun: they load through the corrected `LoadQueryRunChecked`, so the input of the Finding gives `Failure(NoSqlDivider)` where the source's `loadQueryRun` panics at `sqlAbove[1]`.
- `loadQueryRun`: `SettingUnmarshal`'s index panic on a non-blank settings line without '=' is the error `MalformedSetting`.
- In `ui.go` the previous- and next-run messages call `previousQueryRun()` and `nextQueryRun()` with one result, while `query_run.go` declares two. The model follows `query_run.go`.
- `PlanNode.Name` is not part of this model.
- The test fixtures' concrete values are not modelled: the JSON files are not available as values.
- The two dividers are built from pieces of the same text. This keeps the proofs about them small.

## Findings

| source | as written | input that shows it | evidently intended | confidence | as-written member | corrected member |
|---|---|---|---|---|---|---|
| query_run.go:98-118 | The loader checks that the SQL/explain divider occurs anywhere in the file, then indexes `sqlAbove[1]` of the split of the part after the first settings/SQL divider. | `"x=" + explainDivider + "\n" + sqlDivider + "q"`: both checks pass, but the part after the SQL divider holds no explain divider, so the index is out of range and the program panics. | Report a missing SQL/explain divider as an error. | not executed | QueryRuns.LoadPanicsPastDividerCheck | QueryRuns.LoadQueryRunChecked |
