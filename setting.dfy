/**
 * Planner settings as setting.go handles them: a name and a value, their
 * `name=value` and `SET` renderings, the fixed display order of the known
 * settings, and the stepping of a value through the table of values the
 * settings pane offers.
 */
module Settings {
  import opened Wrappers
  import opened Strings

  /** One planner setting, e.g. `work_mem` set to `4MB`. */
  datatype Setting = Setting(name: string, setting: string)

  /** The order in which the settings pane lists the known settings. */
  const SettingPositions: seq<string> :=
    ["work_mem", "random_page_cost", "join_collapse_limit", "effective_cache_size",
     "max_parallel_workers_per_gather"]

  /** The values the pane steps through, per setting. */
  const SettingsValues: map<string, seq<string>> := map[
    "work_mem" := ["4MB", "40MB", "400MB", "800MB", "1GB", "2GB", "3GB", "4GB"],
    "random_page_cost" := ["1", "1.1", "2", "3", "4"],
    "join_collapse_limit" := ["1", "2", "3", "4", "5", "6", "7", "8"],
    "effective_cache_size" := ["4GB"],
    "max_parallel_workers_per_gather" := ["0", "1", "2", "3", "4", "5", "6", "7", "8"]
  ]

  /** Go's lookup `SettingsValues[name]`: a missing name reads as the empty (nil) list. */
  function ValuesOf(name: string): seq<string>
  {
    if name in SettingsValues then SettingsValues[name] else []
  }

  /** No entry occurs twice. */
  predicate Distinct(xs: seq<string>)
  {
    forall i, j :: 0 <= i < j < |xs| ==> xs[i] != xs[j]
  }

  // ---------------------------------------------------------------------
  // Search
  // ---------------------------------------------------------------------

  /** The index of the first entry equal to `x`, or -1 when there is none. */
  function FirstIndex(xs: seq<string>, x: string): (r: int)
    ensures -1 <= r < |xs|
    ensures r == -1 <==> x !in xs
    ensures r >= 0 ==> xs[r] == x && forall j :: 0 <= j < r ==> xs[j] != x
  {
    if xs == [] then -1
    else if xs[0] == x then 0
    else
      var k := FirstIndex(xs[1..], x);
      assert forall j :: 1 <= j < |xs| ==> xs[j] == xs[1..][j - 1];
      if k == -1 then -1 else k + 1
  }

  /** In a list without repeats, the entry at `i` is first found at `i`. */
  lemma FirstIndexDistinct(xs: seq<string>, i: int)
    requires Distinct(xs) && 0 <= i < |xs|
    ensures FirstIndex(xs, xs[i]) == i
  {
  }

  /** The display position of a setting name, -1 for names not in the list. */
  function Position(name: string): int
  {
    FirstIndex(SettingPositions, name)
  }

  /** `FindPosition`: the search loop over the display order. */
  method FindPosition(s: Setting) returns (r: int)
    ensures -1 <= r < |SettingPositions|
    ensures r == -1 <==> s.name !in SettingPositions
    ensures r >= 0 ==> SettingPositions[r] == s.name && forall j :: 0 <= j < r ==> SettingPositions[j] != s.name
    ensures r == Position(s.name)
  {
    var i := 0;
    while i < |SettingPositions|
      invariant 0 <= i <= |SettingPositions|
      invariant forall j :: 0 <= j < i ==> SettingPositions[j] != s.name
    {
      if SettingPositions[i] == s.name {
        return i;
      }
      i := i + 1;
    }
    return -1;
  }

  lemma SettingPositionsDistinct()
    ensures Distinct(SettingPositions)
  {
  }

  /**
   * `SettingCompare`, the sort order of the settings pane: negative when `a`
   * is listed before `b`, zero when both sit at the same place.
   */
  function SettingCompare(a: Setting, b: Setting): int
  {
    Position(a.name) - Position(b.name)
  }

  /**
   * Known settings sort in the display order, and names outside the list
   * sort before every known one.
   */
  lemma SettingCompareOrder(a: Setting, b: Setting)
    ensures SettingCompare(a, b) == -SettingCompare(b, a)
    ensures SettingCompare(a, b) == 0 <==> (a.name == b.name || (a.name !in SettingPositions && b.name !in SettingPositions))
    ensures forall i, j ::
      (0 <= i < |SettingPositions| && 0 <= j < |SettingPositions| &&
       a.name == SettingPositions[i] && b.name == SettingPositions[j]) ==>
      (SettingCompare(a, b) < 0 <==> i < j)
    ensures a.name !in SettingPositions && b.name in SettingPositions ==> SettingCompare(a, b) < 0
  {
    SettingPositionsDistinct();
    forall i, j | 0 <= i < |SettingPositions| && 0 <= j < |SettingPositions| &&
      a.name == SettingPositions[i] && b.name == SettingPositions[j]
      ensures SettingCompare(a, b) < 0 <==> i < j
    {
      FirstIndexDistinct(SettingPositions, i);
      FirstIndexDistinct(SettingPositions, j);
    }
  }

  // ---------------------------------------------------------------------
  // Renderings
  // ---------------------------------------------------------------------

  /** `Sql`: the statement `SET <name> = '<value>'`, taken apart by position. */
  function Sql(s: Setting): (r: string)
    ensures |r| == |s.name| + |s.setting| + 9
    ensures r[..4] == "SET "
    ensures r[4..4 + |s.name|] == s.name
    ensures r[4 + |s.name|..8 + |s.name|] == " = '"
    ensures r[8 + |s.name|..|r| - 1] == s.setting
    ensures r[|r| - 1] == '\''
  {
    "SET " + s.name + " = '" + s.setting + "'"
  }

  /** `Marshal`: the `name=value` line of a `.pgex` file. */
  function Marshal(s: Setting): string
  {
    s.name + "=" + s.setting
  }

  /**
   * `SettingUnmarshal`: the text before the first '=' and the text between
   * it and the next '=' (or the end).  The source indexes the second piece
   * of the split, so a line without '=' is refused (None).
   */
  function SettingUnmarshal(line: string): (r: Option<Setting>)
  {
    var parts := Split(line, "=");
    if |parts| < 2 then None else Some(Setting(parts[0], parts[1]))
  }

  /**
   * What `SettingUnmarshal` reads: refused exactly when the line has no '=';
   * otherwise name and value are '='-free and the line begins with their
   * `name=value` rendering, followed by nothing or by a further '='.
   */
  lemma UnmarshalFacts(line: string)
    ensures SettingUnmarshal(line).None? <==> '=' !in line
    ensures SettingUnmarshal(line).Some? ==>
      var s := SettingUnmarshal(line).value;
      var m := Marshal(s);
      && '=' !in s.name && '=' !in s.setting
      && |m| <= |line| && line[..|m|] == m
      && (|m| < |line| ==> line[|m|] == '=')
  {
    IndexOfChar(line, '=');
    ContainsIffSplits(line, "=");
    var i := IndexOf(line, "=");
    if i != -1 {
      var tail := line[i + 1..];
      IndexOfChar(tail, '=');
      var j := IndexOf(tail, "=");
      var s := SettingUnmarshal(line).value;
      assert s.name == line[..i];
      if j == -1 {
        assert s.setting == tail;
        assert Marshal(s) == line[..i] + "=" + line[i + 1..];
        assert line == line[..i] + "=" + line[i + 1..];
      } else {
        assert s.setting == tail[..j];
        assert Marshal(s) == line[..i + 1 + j];
        assert line[i + 1 + j] == tail[j];
      }
    }
  }

  /** Marshalling then unmarshalling gives the setting back when neither part contains '='. */
  lemma MarshalRoundTrip(s: Setting)
    requires '=' !in s.name && '=' !in s.setting
    ensures SettingUnmarshal(Marshal(s)) == Some(s)
  {
    var line := Marshal(s);
    IndexOfChar(line, '=');
    var i := IndexOf(line, "=");
    assert line[|s.name|] == '=';
    assert i == |s.name|;
    assert line[..i] == s.name;
    assert line[i + 1..] == s.setting;
    SplitNoChar(s.setting, '=');
  }

  /** Only the first two '='-separated pieces are read: `a=b=c` is `a` set to `b`. */
  lemma UnmarshalDropsExtraPieces()
    ensures SettingUnmarshal("a=b=c") == Some(Setting("a", "b"))
  {
    var line := "a=b=c";
    IndexOfChar(line, '=');
    assert line[..1] == "a";
    assert line[2..] == "b=c";
    IndexOfChar("b=c", '=');
    assert "b=c"[..1] == "b";
    assert "b=c"[2..] == "c";
    SplitNoChar("c", '=');
  }

  // ---------------------------------------------------------------------
  // Stepping through the table of values
  // ---------------------------------------------------------------------

  /** Every list in the table is free of repeats. */
  lemma SettingsValuesDistinct(name: string)
    ensures Distinct(ValuesOf(name))
  {
  }

  /** The value after the current one in its setting's list; unchanged at the end, off the list, or for an unknown name. */
  function Incremented(s: Setting): Setting
  {
    var values := ValuesOf(s.name);
    var i := FirstIndex(values, s.setting);
    if 0 <= i && i + 1 < |values| then s.(setting := values[i + 1]) else s
  }

  /** The value before the current one in its setting's list; unchanged at the start, off the list, or for an unknown name. */
  function Decremented(s: Setting): Setting
  {
    var values := ValuesOf(s.name);
    var i := FirstIndex(values, s.setting);
    if i - 1 >= 0 then s.(setting := values[i - 1]) else s
  }

  /** `IncrementSetting`: the search loop that moves a value one step forward. */
  method IncrementSetting(s: Setting) returns (t: Setting)
    ensures t == Incremented(s)
  {
    var values := ValuesOf(s.name);
    t := s;
    var i := 0;
    while i < |values|
      invariant 0 <= i <= |values|
      invariant forall j :: 0 <= j < i ==> values[j] != s.setting
    {
      if values[i] == s.setting {
        if i + 1 < |values| {
          t := t.(setting := values[i + 1]);
        }
        return;
      }
      i := i + 1;
    }
  }

  /** `DecrementSetting`: the search loop that moves a value one step back. */
  method DecrementSetting(s: Setting) returns (t: Setting)
    ensures t == Decremented(s)
  {
    var values := ValuesOf(s.name);
    t := s;
    var i := 0;
    while i < |values|
      invariant 0 <= i <= |values|
      invariant forall j :: 0 <= j < i ==> values[j] != s.setting
    {
      if values[i] == s.setting {
        if i - 1 >= 0 {
          t := t.(setting := values[i - 1]);
        }
        return;
      }
      i := i + 1;
    }
  }

  /**
   * Stepping forward keeps the name and moves to the next list entry exactly
   * when the value is on the list and not its last entry.
   */
  lemma IncrementedFacts(s: Setting)
    ensures Incremented(s).name == s.name
    ensures var values := ValuesOf(s.name);
      Incremented(s) != s <==> (s.setting in values && s.setting != values[|values| - 1])
    ensures var values := ValuesOf(s.name);
      forall i :: 0 <= i < |values| - 1 && values[i] == s.setting ==> Incremented(s).setting == values[i + 1]
  {
    var values := ValuesOf(s.name);
    SettingsValuesDistinct(s.name);
    if s.setting in values {
      var k := FirstIndex(values, s.setting);
      FirstIndexDistinct(values, k);
      FirstIndexDistinct(values, |values| - 1);
      if k + 1 < |values| {
        FirstIndexDistinct(values, k + 1);
      }
    }
  }

  /** The mirror image for stepping back. */
  lemma DecrementedFacts(s: Setting)
    ensures Decremented(s).name == s.name
    ensures var values := ValuesOf(s.name);
      Decremented(s) != s <==> (s.setting in values && s.setting != values[0])
    ensures var values := ValuesOf(s.name);
      forall i :: 1 <= i < |values| && values[i] == s.setting ==> Decremented(s).setting == values[i - 1]
  {
    var values := ValuesOf(s.name);
    SettingsValuesDistinct(s.name);
    if s.setting in values {
      var k := FirstIndex(values, s.setting);
      FirstIndexDistinct(values, k);
      FirstIndexDistinct(values, 0);
      if k >= 1 {
        FirstIndexDistinct(values, k - 1);
      }
    }
  }

  /** A step forward that moved the value is undone by a step back. */
  lemma IncrementThenDecrement(s: Setting)
    requires Incremented(s) != s
    ensures Decremented(Incremented(s)) == s
  {
    var values := ValuesOf(s.name);
    SettingsValuesDistinct(s.name);
    var k := FirstIndex(values, s.setting);
    FirstIndexDistinct(values, k + 1);
  }

  /** A step back that moved the value is undone by a step forward. */
  lemma DecrementThenIncrement(s: Setting)
    requires Decremented(s) != s
    ensures Incremented(Decremented(s)) == s
  {
    var values := ValuesOf(s.name);
    SettingsValuesDistinct(s.name);
    var k := FirstIndex(values, s.setting);
    FirstIndexDistinct(values, k - 1);
  }
}
