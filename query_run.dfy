/**
 * One run of a query as query_run.go keeps it: the query text, the EXPLAIN
 * result, the settings it ran with, and the `.pgex` file it is stored in.
 * The file system, the clock and the user's home directory are parameters:
 * a directory listing is a sequence of paths and the files are a map from
 * path to contents.
 */
module QueryRuns {
  import opened Wrappers
  import opened Strings
  import opened Settings

  datatype QueryRun = QueryRun(
    query: string,
    result: string,
    originalFilename: string,
    pgexPointer: string,
    settings: seq<Setting>)

  const Extension: string := ".pgex"
  /**
   * The two dividers, written in short pieces: a rule of 16 dashes, the
   * words, and the rule again, so that
   * ExplainDivider is `---------------- SQL ABOVE / EXPLAIN JSON BELOW ----------------` and
   * SqlDivider is `---------------- SETTINGS ABOVE / SQL BELOW ----------------`.
   */
  const Rule: string := "----------------"
  const ExplainDivider: string := Rule + " SQL" + " ABOVE /" + " EXPLAIN" + " JSON" + " BELOW " + Rule
  const SqlDivider: string := Rule + " SETTINGS" + " ABOVE /" + " SQL" + " BELOW " + Rule

  /** The option list `WithExplain` puts in front of the query. */
  const ExplainPrefix: string := "explain (\n\t\tformat json\n\t) "
  /** The option list `WithExplainAnalyze` puts in front of the query. */
  const ExplainAnalyzePrefix: string := "explain (\n\t\tsettings,\n\t\tformat json,\n\t\tbuffers,\n\t\tanalyze\n\t) "

  /**
   * Why a run cannot be loaded.  `MissingPlanPart` is the index panic on the
   * second piece of the SQL/plan split.
   */
  datatype LoadError =
    | ReadFailed | NoPgexDir | NoSettingsDivider | NoSqlDivider | MalformedSetting | MissingPlanPart

  // ---------------------------------------------------------------------
  // Small operations
  // ---------------------------------------------------------------------

  /** `WithExplain`: the query behind the plain EXPLAIN option list. */
  function WithExplain(q: QueryRun): (r: string)
    ensures |r| == |ExplainPrefix| + |q.query|
    ensures r[..|ExplainPrefix|] == ExplainPrefix && r[|ExplainPrefix|..] == q.query
  {
    ExplainPrefix + q.query
  }

  /** `WithExplainAnalyze`: the query behind the ANALYZE, BUFFERS, SETTINGS option list. */
  function WithExplainAnalyze(q: QueryRun): (r: string)
    ensures |r| == |ExplainAnalyzePrefix| + |q.query|
    ensures r[..|ExplainAnalyzePrefix|] == ExplainAnalyzePrefix && r[|ExplainAnalyzePrefix|..] == q.query
  {
    ExplainAnalyzePrefix + q.query
  }

  /** `SetResult`: the result is replaced and nothing else changes. */
  function SetResult(q: QueryRun, result: string): (r: QueryRun)
    ensures r.result == result
    ensures r.query == q.query && r.originalFilename == q.originalFilename
    ensures r.pgexPointer == q.pgexPointer && r.settings == q.settings
  {
    q.(result := result)
  }

  // ---------------------------------------------------------------------
  // The .pgex text
  // ---------------------------------------------------------------------

  /** The settings block: one `name=value` line per setting. */
  function SettingsBlock(settings: seq<Setting>): string
    decreases |settings|
  {
    if settings == [] then "" else Marshal(settings[0]) + "\n" + SettingsBlock(settings[1..])
  }

  lemma {:induction false} SettingsBlockAppend(settings: seq<Setting>, s: Setting)
    ensures SettingsBlock(settings + [s]) == SettingsBlock(settings) + Marshal(s) + "\n"
    decreases |settings|
  {
    if settings == [] {
      assert [s][1..] == [];
    } else {
      assert (settings + [s])[1..] == settings[1..] + [s];
      SettingsBlockAppend(settings[1..], s);
    }
  }

  /** The whole file: settings, divider, query, divider, result, each part set off by blank lines. */
  function PgexText(q: QueryRun): string
  {
    SettingsBlock(q.settings) + "\n\n" + SqlDivider + "\n\n" + q.query + "\n\n"
      + ExplainDivider + "\n\n" + q.result + "\n\n"
  }

  /** `pgexFileContent`: the builder loop that writes the file. */
  method PgexFileContent(q: QueryRun) returns (text: string)
    ensures text == PgexText(q)
  {
    text := "";
    for i := 0 to |q.settings|
      invariant text == SettingsBlock(q.settings[..i])
    {
      SettingsBlockAppend(q.settings[..i], q.settings[i]);
      assert q.settings[..i + 1] == q.settings[..i] + [q.settings[i]];
      text := text + Marshal(q.settings[i]);
      text := text + "\n";
    }
    assert q.settings[..|q.settings|] == q.settings;
    text := text + "\n\n";
    text := text + SqlDivider;
    text := text + "\n\n";
    text := text + q.query;
    text := text + "\n\n";
    text := text + ExplainDivider;
    text := text + "\n\n";
    text := text + q.result;
    text := text + "\n\n";
  }

  // ---------------------------------------------------------------------
  // Reading the settings lines
  // ---------------------------------------------------------------------

  /** A line that is more than spaces; blank lines are skipped. */
  predicate NonBlank(line: string)
  {
    TrimSpaces(line) != ""
  }

  /** The settings of the non-blank lines, in order; None when one of them has no '='. */
  function ParseSettings(lines: seq<string>): (r: Option<seq<Setting>>)
    ensures r.Some? ==> |r.value| <= |lines|
    decreases |lines|
  {
    if lines == [] then Some([])
    else
      var line := lines[|lines| - 1];
      match ParseSettings(lines[..|lines| - 1])
      case None => None
      case Some(front) =>
        if !NonBlank(line) then Some(front)
        else
          match SettingUnmarshal(line)
          case None => None
          case Some(s) => Some(front + [s])
  }

  /** The non-blank lines, in order. */
  function SettingLines(lines: seq<string>): seq<string>
    decreases |lines|
  {
    if lines == [] then []
    else
      var line := lines[|lines| - 1];
      SettingLines(lines[..|lines| - 1]) + (if NonBlank(line) then [line] else [])
  }

  /**
   * Parsing succeeds exactly when every non-blank line has an '=', and then
   * yields one setting per non-blank line, each the unmarshalled line.
   */
  lemma {:induction false} ParseSettingsKept(lines: seq<string>)
    ensures ParseSettings(lines).Some? <==> forall l :: l in SettingLines(lines) ==> '=' in l
    ensures ParseSettings(lines).Some? ==>
      var ss := ParseSettings(lines).value;
      && |ss| == |SettingLines(lines)|
      && forall i :: 0 <= i < |ss| ==> SettingUnmarshal(SettingLines(lines)[i]) == Some(ss[i])
    decreases |lines|
  {
    if lines != [] {
      var init := lines[..|lines| - 1];
      var line := lines[|lines| - 1];
      ParseSettingsKept(init);
      UnmarshalFacts(line);
      var kept := SettingLines(init);
      if NonBlank(line) {
        assert SettingLines(lines) == kept + [line];
      } else {
        assert SettingLines(lines) == kept;
      }
    }
  }

  /** Once a prefix of the lines fails to parse, so do all the lines. */
  lemma {:induction false} ParseSettingsPrefixFails(lines: seq<string>, k: nat)
    requires k <= |lines| && ParseSettings(lines[..k]).None?
    ensures ParseSettings(lines).None?
    decreases |lines| - k
  {
    if k < |lines| {
      assert lines[..k + 1][..k] == lines[..k];
      ParseSettingsPrefixFails(lines, k + 1);
    } else {
      assert lines[..k] == lines;
    }
  }

  /** The loop of `loadQueryRun` that unmarshals every non-blank line (stopping at a bad one). */
  method ReadSettings(lines: seq<string>) returns (r: Option<seq<Setting>>)
    ensures r == ParseSettings(lines)
  {
    var settings: seq<Setting> := [];
    for i := 0 to |lines|
      invariant ParseSettings(lines[..i]) == Some(settings)
    {
      assert lines[..i + 1][..i] == lines[..i];
      if TrimSpaces(lines[i]) != "" {
        var s := SettingUnmarshal(lines[i]);
        if s.None? {
          ParseSettingsPrefixFails(lines, i + 1);
          return None;
        }
        settings := settings + [s.value];
      }
    }
    assert lines[..|lines|] == lines;
    return Some(settings);
  }

  // ---------------------------------------------------------------------
  // Loading a run
  // ---------------------------------------------------------------------

  /**
   * `loadQueryRun` on the contents of `pgexFile`, as written: both dividers
   * must occur somewhere, the settings are the lines before the first
   * settings/SQL divider, the query and the result are the two pieces
   * around the first SQL/plan divider after it.
   */
  function LoadQueryRun(contents: string, pgexFile: string): Result<QueryRun, LoadError>
  {
    if !Contains(contents, SqlDivider) then Failure(NoSettingsDivider)
    else if !Contains(contents, ExplainDivider) then Failure(NoSqlDivider)
    else
      ContainsIffSplits(contents, SqlDivider);
      var settingsAbove := Split(contents, SqlDivider);
      match ParseSettings(Split(settingsAbove[0], "\n"))
      case None => Failure(MalformedSetting)
      case Some(settings) =>
        var sqlAbove := Split(settingsAbove[1], ExplainDivider);
        if |sqlAbove| < 2 then Failure(MissingPlanPart)
        else Success(QueryRun(sqlAbove[0], sqlAbove[1], "", BaseName(pgexFile), settings))
  }

  /**
   * The divider check passes when the SQL/plan divider sits inside the
   * settings part, and the file then fails on the index of the missing
   * plan piece.
   */
  lemma LoadPanicsPastDividerCheck(pgexFile: string)
    ensures var contents := "x=" + ExplainDivider + "\n" + SqlDivider + "q";
      && Contains(contents, SqlDivider)
      && Contains(contents, ExplainDivider)
      && LoadQueryRun(contents, pgexFile) == Failure(MissingPlanPart)
  {
    DividerFacts();
    var settingsPart := "x=" + ExplainDivider + "\n";
    var contents := settingsPart + SqlDivider + "q";
    assert contents == "x=" + ExplainDivider + "\n" + SqlDivider + "q";
    assert contents == "x=" + ExplainDivider + ("\n" + SqlDivider + "q");
    ContainsMiddle("x=", ExplainDivider, "\n" + SqlDivider + "q");
    AbsentByCharacter(settingsPart, SqlDivider, 'T');
    AbsentByCharacter("q", SqlDivider, '-');
    SplitTwo(settingsPart, SqlDivider, "q");
    ContainsIffSplits(contents, SqlDivider);
    OneSettingPart(ExplainDivider);
    AbsentByCharacter("q", ExplainDivider, '-');
    SplitAbsent("q", ExplainDivider);
  }

  /** The settings part `x=<value>` and its newline reads as the one setting. */
  lemma OneSettingPart(value: string)
    requires '=' !in value && '\n' !in value
    ensures ParseSettings(Split("x=" + value + "\n", "\n")) == Some([Setting("x", value)])
  {
    var line := "x=" + value;
    assert line + "\n" + "" == "x=" + value + "\n";
    SplitLine(line, "");
    AbsentEmpty("\n");
    SplitAbsent("", "\n");
    assert [line] + [""] == [line, ""];
    ParseSettingsBlankTail([line]);
    var s := Setting("x", value);
    assert Marshal(s) == line;
    MarshalLine(s);
    assert [] + [line] == [line];
    assert ParseSettings([]) == Some([]);
    ParseSettingsSnoc([], line);
    assert [] + [s] == [s];
  }


  /**
   * `loadQueryRun` as intended: a file whose SQL part lacks the SQL/plan
   * divider is refused with the missing-divider error instead of failing
   * on the index.
   */
  function LoadQueryRunChecked(contents: string, pgexFile: string): (r: Result<QueryRun, LoadError>)
    ensures r != Failure(MissingPlanPart)
    ensures LoadQueryRun(contents, pgexFile) != Failure(MissingPlanPart) ==> r == LoadQueryRun(contents, pgexFile)
  {
    match LoadQueryRun(contents, pgexFile)
    case Failure(MissingPlanPart) => Failure(NoSqlDivider)
    case other => other
  }

  /** Reading a file of the directory listing, then loading it. */
  function LoadFile(path: string, disk: map<string, string>): Result<QueryRun, LoadError>
  {
    if path in disk then LoadQueryRunChecked(disk[path], path) else Failure(ReadFailed)
  }

  /**
   * Navigation loads through the corrected loader: the file of
   * `LoadPanicsPastDividerCheck` is refused with the missing-divider error
   * where the source's loader fails on the index.
   */
  lemma LoadFileRefusesMisplacedDivider(path: string)
    ensures var contents := "x=" + ExplainDivider + "\n" + SqlDivider + "q";
      LoadFile(path, map[path := contents]) == Failure(NoSqlDivider)
  {
    LoadPanicsPastDividerCheck(path);
  }

  /** A loaded run points at the base name of its file and has no original file name. */
  lemma LoadedPointer(contents: string, pgexFile: string)
    ensures LoadQueryRunChecked(contents, pgexFile).Success? ==>
      && LoadQueryRunChecked(contents, pgexFile).value.pgexPointer == BaseName(pgexFile)
      && LoadQueryRunChecked(contents, pgexFile).value.originalFilename == ""
  {
  }

  /** Both dividers are required: without either one the file is refused with its error. */
  lemma LoadNeedsDividers(contents: string, pgexFile: string)
    ensures !Contains(contents, SqlDivider) ==> LoadQueryRunChecked(contents, pgexFile) == Failure(NoSettingsDivider)
    ensures Contains(contents, SqlDivider) && !Contains(contents, ExplainDivider) ==>
      LoadQueryRunChecked(contents, pgexFile) == Failure(NoSqlDivider)
    ensures LoadQueryRunChecked(contents, pgexFile).Success? ==>
      Contains(contents, SqlDivider) && Contains(contents, ExplainDivider)
  {
  }

  // ---------------------------------------------------------------------
  // The session round trip
  // ---------------------------------------------------------------------

  lemma RuleFacts()
    ensures '\n' !in Rule && '=' !in Rule && 'T' !in Rule && '-' in Rule
  {
    assert Rule[0] == '-';
  }

  lemma SqlDividerFacts()
    ensures |SqlDivider| > 0 && '-' in SqlDivider && 'T' in SqlDivider
    ensures '\n' !in SqlDivider && '=' !in SqlDivider
  {
    RuleFacts();
    assert '\n' !in " SQL" && '=' !in " SQL";
    assert '\n' !in " ABOVE /" && '=' !in " ABOVE /";
    assert '\n' !in " BELOW " && '=' !in " BELOW ";
    assert '\n' !in " SETTINGS" && '=' !in " SETTINGS" && " SETTINGS"[3] == 'T';
  }

  lemma ExplainDividerFacts()
    ensures |ExplainDivider| > 0 && '-' in ExplainDivider && 'T' !in ExplainDivider
    ensures '\n' !in ExplainDivider && '=' !in ExplainDivider
  {
    RuleFacts();
    assert '\n' !in " SQL" && '=' !in " SQL" && 'T' !in " SQL";
    assert '\n' !in " ABOVE /" && '=' !in " ABOVE /" && 'T' !in " ABOVE /";
    assert '\n' !in " EXPLAIN" && '=' !in " EXPLAIN" && 'T' !in " EXPLAIN";
    assert '\n' !in " JSON" && '=' !in " JSON" && 'T' !in " JSON";
    assert '\n' !in " BELOW " && '=' !in " BELOW " && 'T' !in " BELOW ";
  }

  /** The facts about the two dividers the round trip needs. */
  lemma DividerFacts()
    ensures |SqlDivider| > 0 && |ExplainDivider| > 0
    ensures '\n' !in SqlDivider && '\n' !in ExplainDivider && '=' !in SqlDivider
    ensures 'T' in SqlDivider && 'T' !in ExplainDivider
    ensures '-' in SqlDivider && '-' in ExplainDivider && '=' !in ExplainDivider
    ensures Absent(ExplainDivider, SqlDivider)
  {
    SqlDividerFacts();
    ExplainDividerFacts();
    AbsentByCharacter(ExplainDivider, SqlDivider, 'T');
  }


  /** A setting whose `name=value` line reads back as itself. */
  predicate OneLine(s: Setting)
  {
    && '=' !in s.name && '=' !in s.setting
    && '\n' !in s.name && '\n' !in s.setting
  }

  /** A setting that a `.pgex` file stores and gives back unchanged. */
  ghost predicate Storable(s: Setting)
  {
    OneLine(s) && Absent(s.name, SqlDivider) && Absent(s.setting, SqlDivider)
  }

  /** The `name=value` lines of some settings. */
  function MarshalAll(settings: seq<Setting>): (r: seq<string>)
    ensures |r| == |settings|
    ensures forall i :: 0 <= i < |settings| ==> r[i] == Marshal(settings[i])
    decreases |settings|
  {
    if settings == [] then [] else [Marshal(settings[0])] + MarshalAll(settings[1..])
  }

  lemma {:induction false} BlockLacksDivider(settings: seq<Setting>)
    requires forall s :: s in settings ==> Storable(s)
    ensures Absent(SettingsBlock(settings), SqlDivider)
    decreases |settings|
  {
    DividerFacts();
    if settings == [] {
      AbsentEmpty(SqlDivider);
    } else {
      var s := settings[0];
      assert Storable(s);
      BlockLacksDivider(settings[1..]);
      AbsentAcross(s.name, '=', s.setting, SqlDivider);
      assert s.name + ['='] + s.setting == Marshal(s);
      AbsentAcross(Marshal(s), '\n', SettingsBlock(settings[1..]), SqlDivider);
      assert Marshal(s) + ['\n'] + SettingsBlock(settings[1..]) == SettingsBlock(settings);
    }
  }

  /** A line without a newline, then a newline: the line is the first piece. */
  lemma SplitLine(line: string, rest: string)
    requires |line| > 0 && '\n' !in line
    ensures Split(line + "\n" + rest, "\n") == [line] + Split(rest, "\n")
  {
    AbsentByCharacter(line, "\n", '\n');
    FirstOccurrenceAfter(line, "\n", rest);
    SplitAt(line, "\n", rest);
  }

  lemma SplitBlankLine()
    ensures Split("\n\n", "\n") == ["", "", ""]
  {
    assert "\n\n"[0..1] == "\n" && "\n\n"[1..] == "\n";
    assert "\n"[0..1] == "\n" && "\n"[1..] == "";
    assert Split("", "\n") == [""];
  }

  /** The settings block and the blank line after it split into the setting lines and three empty pieces. */
  lemma {:induction false} BlockLines(settings: seq<Setting>)
    requires forall s :: s in settings ==> OneLine(s)
    ensures Split(SettingsBlock(settings) + "\n\n", "\n") == MarshalAll(settings) + ["", "", ""]
    decreases |settings|
  {
    if settings == [] {
      assert "" + "\n\n" == "\n\n";
      SplitBlankLine();
    } else {
      var s := settings[0];
      assert OneLine(s);
      var rest := SettingsBlock(settings[1..]) + "\n\n";
      BlockLines(settings[1..]);
      assert SettingsBlock(settings) + "\n\n" == Marshal(s) + "\n" + rest;
      SplitLine(Marshal(s), rest);
    }
  }

  /** Blank lines at the end change nothing. */
  lemma ParseSettingsBlankTail(lines: seq<string>)
    ensures ParseSettings(lines + [""]) == ParseSettings(lines)
  {
    assert (lines + [""])[..|lines|] == lines;
    assert TrimSpaces("") == "";
  }

  /** The setting lines parse back into the settings. */
  lemma {:induction false} MarshalAllAppend(settings: seq<Setting>, s: Setting)
    ensures MarshalAll(settings + [s]) == MarshalAll(settings) + [Marshal(s)]
    decreases |settings|
  {
    if settings == [] {
      assert [s][1..] == [];
    } else {
      assert (settings + [s])[1..] == settings[1..] + [s];
      MarshalAllAppend(settings[1..], s);
    }
  }

  /** A non-blank line that unmarshals adds its setting at the end. */
  lemma ParseSettingsSnoc(lines: seq<string>, line: string)
    requires ParseSettings(lines).Some? && NonBlank(line) && SettingUnmarshal(line).Some?
    ensures ParseSettings(lines + [line]) == Some(ParseSettings(lines).value + [SettingUnmarshal(line).value])
  {
    assert (lines + [line])[..|lines|] == lines;
  }

  /** The line of a one-line setting is non-blank and reads back as the setting. */
  lemma MarshalLine(s: Setting)
    requires OneLine(s)
    ensures NonBlank(Marshal(s)) && SettingUnmarshal(Marshal(s)) == Some(s)
  {
    var m := Marshal(s);
    TrimSpacesNonEmpty(m);
    assert m[|s.name|] == '=';
    MarshalRoundTrip(s);
  }

  lemma {:induction false} ParseMarshalled(settings: seq<Setting>)
    requires forall s :: s in settings ==> OneLine(s)
    ensures ParseSettings(MarshalAll(settings)) == Some(settings)
    decreases |settings|
  {
    if settings != [] {
      var init := settings[..|settings| - 1];
      var s := settings[|settings| - 1];
      assert s in settings && OneLine(s);
      assert settings == init + [s];
      ParseMarshalled(init);
      MarshalAllAppend(init, s);
      MarshalLine(s);
      ParseSettingsSnoc(MarshalAll(init), Marshal(s));
    }
  }

  /** The settings block and its blank line read back as the settings. */
  lemma SettingsRoundTrip(settings: seq<Setting>)
    requires forall s :: s in settings ==> OneLine(s)
    ensures ParseSettings(Split(SettingsBlock(settings) + "\n\n", "\n")) == Some(settings)
  {
    BlockLines(settings);
    ParseMarshalled(settings);
    var lines := MarshalAll(settings);
    ParseSettingsBlankTail(lines);
    ParseSettingsBlankTail(lines + [""]);
    ParseSettingsBlankTail(lines + [""] + [""]);
    assert lines + [""] + [""] + [""] == lines + ["", "", ""];
  }

  /** A text with exactly one occurrence of `sep`, not overlapping its first part, splits in two. */
  lemma SplitTwo(x: string, sep: string, y: string)
    requires |sep| > 0 && |x| > 0 && x[|x| - 1] !in sep
    requires Absent(x, sep) && Absent(y, sep)
    ensures Split(x + sep + y, sep) == [x, y]
  {
    FirstOccurrenceAfter(x, sep, y);
    SplitAt(x, sep, y);
    SplitAbsent(y, sep);
  }

  /** A text contains what it has in the middle. */
  lemma ContainsMiddle(x: string, sep: string, y: string)
    ensures Contains(x + sep + y, sep)
  {
    var s := x + sep + y;
    assert s[|x|..|x| + |sep|] == sep;
    assert OccursAt(s, sep, |x|);
    IndexOfFirst(s, sep);
  }

  /** `"\n\n" + x + "\n\n"`, a part set off by blank lines, lacks any divider `x` lacks. */
  lemma FramedLacks(x: string, sep: string)
    requires |sep| > 0 && '\n' !in sep && Absent(x, sep)
    ensures Absent("\n\n" + x + "\n\n", sep)
  {
    AbsentEmpty(sep);
    AbsentAcrossBlankLine("", x, sep);
    AbsentAcrossBlankLine("" + "\n\n" + x, "", sep);
    assert "" + "\n\n" + x + "\n\n" + "" == "\n\n" + x + "\n\n";
  }

  /** The settings part of a written file has no settings/SQL divider. */
  lemma SettingsPartLacksDivider(settings: seq<Setting>)
    requires forall s :: s in settings ==> Storable(s)
    ensures Absent(SettingsBlock(settings) + "\n\n", SqlDivider)
  {
    DividerFacts();
    var block := SettingsBlock(settings);
    BlockLacksDivider(settings);
    AbsentAcrossBlankLine(block, "", SqlDivider);
    assert block + "\n\n" + "" == block + "\n\n";
  }

  /** The part of a written file after the settings/SQL divider has no other one. */
  lemma SqlPartLacksDivider(query: string, result: string)
    requires Absent(query, SqlDivider) && Absent(result, SqlDivider)
    ensures Absent("\n\n" + query + "\n\n" + ExplainDivider + "\n\n" + result + "\n\n", SqlDivider)
  {
    DividerFacts();
    AbsentEmpty(SqlDivider);
    var x1 := "" + "\n\n" + query;
    AbsentAcrossBlankLine("", query, SqlDivider);
    var x2 := x1 + "\n\n" + ExplainDivider;
    AbsentAcrossBlankLine(x1, ExplainDivider, SqlDivider);
    var x3 := x2 + "\n\n" + result;
    AbsentAcrossBlankLine(x2, result, SqlDivider);
    AbsentAcrossBlankLine(x3, "", SqlDivider);
    assert x3 + "\n\n" + "" == "\n\n" + query + "\n\n" + ExplainDivider + "\n\n" + result + "\n\n";
  }

  /**
   * Loading the text of a run gives the run back: the same settings, the
   * query and the result each framed by the blank lines around them, and
   * the file name as the pointer.  The dividers must not occur in the query
   * or the result, and each setting must be storable.
   */
  lemma SessionRoundTrip(q: QueryRun, pgexFile: string)
    requires forall s :: s in q.settings ==> Storable(s)
    requires Absent(q.query, SqlDivider) && Absent(q.query, ExplainDivider)
    requires Absent(q.result, SqlDivider) && Absent(q.result, ExplainDivider)
    ensures LoadQueryRun(PgexText(q), pgexFile) ==
      Success(QueryRun("\n\n" + q.query + "\n\n", "\n\n" + q.result + "\n\n", "", BaseName(pgexFile), q.settings))
    ensures LoadQueryRunChecked(PgexText(q), pgexFile) == LoadQueryRun(PgexText(q), pgexFile)
  {
    DividerFacts();
    var a := SettingsBlock(q.settings) + "\n\n";
    var p := "\n\n" + q.query + "\n\n";
    var r := "\n\n" + q.result + "\n\n";
    var b := p + ExplainDivider + r;
    var contents := PgexText(q);
    assert contents == a + SqlDivider + b;
    assert contents == (a + SqlDivider + p) + ExplainDivider + r;

    SettingsPartLacksDivider(q.settings);
    SqlPartLacksDivider(q.query, q.result);
    assert b == "\n\n" + q.query + "\n\n" + ExplainDivider + "\n\n" + q.result + "\n\n";
    SplitTwo(a, SqlDivider, b);
    ContainsMiddle(a + SqlDivider + p, ExplainDivider, r);
    assert forall s :: s in q.settings ==> OneLine(s);
    SettingsRoundTrip(q.settings);
    FramedLacks(q.query, ExplainDivider);
    FramedLacks(q.result, ExplainDivider);
    SplitTwo(p, ExplainDivider, r);
  }

  // ---------------------------------------------------------------------
  // Moving between runs
  // ---------------------------------------------------------------------

  /** The index of the last listed file whose path contains `pointer`, 0 when none does. */
  function CurrentIndex(files: seq<string>, pointer: string): (r: nat)
    ensures files == [] ==> r == 0
    ensures files != [] ==> r < |files|
    decreases |files|
  {
    if files == [] then 0
    else if Contains(files[|files| - 1], pointer) then |files| - 1
    else CurrentIndex(files[..|files| - 1], pointer)
  }

  /** The current index is the last match: no later file contains the pointer, and it does unless nothing does. */
  lemma {:induction false} CurrentIndexFacts(files: seq<string>, pointer: string)
    ensures forall j :: CurrentIndex(files, pointer) < j < |files| ==> !Contains(files[j], pointer)
    ensures (exists j :: 0 <= j < |files| && Contains(files[j], pointer)) ==>
      Contains(files[CurrentIndex(files, pointer)], pointer)
    ensures (forall j :: 0 <= j < |files| ==> !Contains(files[j], pointer)) ==> CurrentIndex(files, pointer) == 0
    decreases |files|
  {
    if files != [] && !Contains(files[|files| - 1], pointer) {
      var init := files[..|files| - 1];
      CurrentIndexFacts(init, pointer);
      if j :| 0 <= j < |files| && Contains(files[j], pointer) {
        assert init[j] == files[j];
      }
    }
  }

  /** The loop of `previousQueryRun` and `nextQueryRun` that finds the current index. */
  method FindCurrentIndex(files: seq<string>, pointer: string) returns (r: nat)
    ensures r == CurrentIndex(files, pointer)
  {
    r := 0;
    for i := 0 to |files|
      invariant r == CurrentIndex(files[..i], pointer)
    {
      assert files[..i + 1][..i] == files[..i];
      if Contains(files[i], pointer) {
        r := i;
      }
    }
    assert files[..|files|] == files;
  }

  /** The listed file `previousQueryRun` loads: the one before the current one, None at the start. */
  function PreviousIndex(files: seq<string>, pointer: string): (r: Option<nat>)
    ensures r.Some? ==> r.value + 1 < |files| && Contains(files[r.value + 1], pointer)
    ensures r.Some? ==> forall j :: r.value + 1 < j < |files| ==> !Contains(files[j], pointer)
    ensures r.None? ==> forall j :: 0 < j < |files| ==> !Contains(files[j], pointer)
  {
    CurrentIndexFacts(files, pointer);
    var i := CurrentIndex(files, pointer);
    if i as int - 1 >= 0 then Some(i - 1) else None
  }

  /** The listed file `nextQueryRun` loads: the one after the current one, None at the end. */
  function NextIndex(files: seq<string>, pointer: string): (r: Option<nat>)
    ensures r.Some? ==> 0 < r.value < |files|
    ensures r.Some? ==> forall j :: r.value <= j < |files| ==> !Contains(files[j], pointer)
    ensures r.None? ==> files == [] || |files| == 1 || Contains(files[|files| - 1], pointer)
  {
    CurrentIndexFacts(files, pointer);
    var i := CurrentIndex(files, pointer);
    if i + 1 < |files| then Some(i + 1) else None
  }

  /** `previousQueryRun`: the run before the current one, `q` itself at the start. */
  method PreviousQueryRun(q: QueryRun, entries: Option<seq<string>>, disk: map<string, string>)
    returns (r: Result<QueryRun, LoadError>)
    ensures entries.None? ==> r == Failure(NoPgexDir)
    ensures entries.Some? ==>
      r == match PreviousIndex(entries.value, q.pgexPointer)
           case None => Success(q)
           case Some(k) => LoadFile(entries.value[k], disk)
  {
    if entries.None? {
      return Failure(NoPgexDir);
    }
    var files := entries.value;
    var currentIndex := FindCurrentIndex(files, q.pgexPointer);
    if currentIndex as int - 1 >= 0 {
      r := LoadFile(files[currentIndex - 1], disk);
    } else {
      r := Success(q);
    }
  }

  /** `nextQueryRun`: the run after the current one, `q` itself at the end. */
  method NextQueryRun(q: QueryRun, entries: Option<seq<string>>, disk: map<string, string>)
    returns (r: Result<QueryRun, LoadError>)
    ensures entries.None? ==> r == Failure(NoPgexDir)
    ensures entries.Some? ==>
      r == match NextIndex(entries.value, q.pgexPointer)
           case None => Success(q)
           case Some(k) => LoadFile(entries.value[k], disk)
  {
    if entries.None? {
      return Failure(NoPgexDir);
    }
    var files := entries.value;
    var currentIndex := FindCurrentIndex(files, q.pgexPointer);
    if currentIndex + 1 < |files| {
      r := LoadFile(files[currentIndex + 1], disk);
    } else {
      r := Success(q);
    }
  }

  /** A path contains its base name. */
  lemma ContainsBaseName(path: string)
    ensures Contains(path, BaseName(path))
  {
    var k :| 0 <= k <= |path| && BaseName(path) == path[k..];
    assert OccursAt(path, path[k..], k);
    IndexOfFirst(path, path[k..]);
  }

  /** A matching file with no matching file after it is the current one. */
  lemma CurrentIndexIsLast(files: seq<string>, pointer: string, k: nat)
    requires k < |files| && Contains(files[k], pointer)
    requires forall j :: k < j < |files| ==> !Contains(files[j], pointer)
    ensures CurrentIndex(files, pointer) == k
  {
    CurrentIndexFacts(files, pointer);
  }

  /** A loaded file's run points at the file's base name. */
  lemma LoadFilePointer(path: string, disk: map<string, string>)
    ensures LoadFile(path, disk).Success? ==> LoadFile(path, disk).value.pgexPointer == BaseName(path)
  {
    if path in disk {
      LoadedPointer(disk[path], path);
    }
  }

  /**
   * Stepping forward to the file at `k` and then back from the run loaded
   * from it selects the file before `k`, as long as no later listed path
   * contains the base name of file `k`.
   */
  lemma NextThenPrevious(files: seq<string>, pointer: string, k: nat)
    requires NextIndex(files, pointer) == Some(k)
    requires forall j :: k < j < |files| ==> !Contains(files[j], BaseName(files[k]))
    ensures PreviousIndex(files, BaseName(files[k])) == Some(k - 1)
    ensures k - 1 == CurrentIndex(files, pointer)
  {
    ContainsBaseName(files[k]);
    CurrentIndexIsLast(files, BaseName(files[k]), k);
  }

  /**
   * Stepping back to the file at `k` and then forward from the run loaded
   * from it selects the file after `k`, as long as no later listed path
   * contains the base name of file `k`.
   */
  lemma PreviousThenNext(files: seq<string>, pointer: string, k: nat)
    requires PreviousIndex(files, pointer) == Some(k)
    requires forall j :: k < j < |files| ==> !Contains(files[j], BaseName(files[k]))
    ensures NextIndex(files, BaseName(files[k])) == Some(k + 1)
    ensures k + 1 == CurrentIndex(files, pointer)
  {
    ContainsBaseName(files[k]);
    CurrentIndexIsLast(files, BaseName(files[k]), k);
  }



  // ---------------------------------------------------------------------
  // File names
  // ---------------------------------------------------------------------

  /** Go's `strings.Replace(s, pattern, replacement, 1)`: the first occurrence is replaced. */
  function ReplaceFirst(s: string, pattern: string, replacement: string): (r: string)
    ensures Absent(s, pattern) ==> r == s
    ensures !Absent(s, pattern) ==>
      exists i :: && OccursAt(s, pattern, i)
                  && (forall j :: 0 <= j < i ==> !OccursAt(s, pattern, j))
                  && r == s[..i] + replacement + s[i + |pattern|..]
    ensures forall c :: c in r ==> c in s || c in replacement
  {
    IndexOfFirst(s, pattern);
    var i := IndexOf(s, pattern);
    if i == -1 then s
    else
      assert forall c :: c in s[..i] ==> c in s;
      assert forall c :: c in s[i + |pattern|..] ==> c in s;
      s[..i] + replacement + s[i + |pattern|..]
  }

  /** `pgexFilename`: `<timestamp>_<file name up to its first '.'>.pgex`, after expanding `~` to `home`. */
  function PgexFilename(q: QueryRun, home: string, timestamp: string): string
  {
    var filePath := ReplaceFirst(q.originalFilename, "~", home);
    var file := BaseName(filePath);
    var name := Split(file, ".")[0];
    timestamp + "_" + name + Extension
  }

  predicate IsDigit(c: char)
  {
    '0' <= c <= '9'
  }

  /** The entry filter `[0-9]{14}_.*\.pgex` matches at `i`, with the `.pgex` at `j`. */
  predicate EntryMatchAt(name: string, i: int, j: int)
  {
    && 0 <= i && i + 15 <= j && j + 5 <= |name|
    && (forall k :: i <= k < i + 14 ==> IsDigit(name[k]))
    && name[i + 14] == '_'
    && (forall k :: i + 15 <= k < j ==> name[k] != '\n')
    && name[j..j + 5] == ".pgex"
  }

  /** The unanchored regular-expression match of the entry filter. */
  ghost predicate MatchesEntryPattern(name: string)
  {
    exists i, j :: EntryMatchAt(name, i, j)
  }

  /** Where `Split(s, ".")[0]` ends: the text before the first '.' or all of it. */
  lemma FirstDotPiece(s: string)
    ensures var name := Split(s, ".")[0];
      && '.' !in name && |name| <= |s| && s[..|name|] == name
      && (|name| < |s| ==> s[|name|] == '.')
  {
    IndexOfChar(s, '.');
    if IndexOf(s, ".") == -1 {
      SplitNoChar(s, '.');
    }
  }

  /** A file name made of 14 digits, '_', a newline-free name and `.pgex` passes the entry filter. */
  lemma EntryShape(timestamp: string, name: string)
    requires |timestamp| == 14 && forall k :: 0 <= k < 14 ==> IsDigit(timestamp[k])
    requires '\n' !in name
    ensures MatchesEntryPattern(timestamp + "_" + name + ".pgex")
  {
    var r := timestamp + "_" + name + ".pgex";
    var j := 15 + |name|;
    assert r[..14] == timestamp;
    assert r[14] == '_';
    assert r[15..j] == name;
    assert r[j..] == ".pgex";
    assert EntryMatchAt(r, 0, j);
  }

  /**
   * The name part is the base name of the expanded path up to its first
   * '.', and with a 14-digit timestamp the file name passes the entry
   * filter of the directory listing.
   */
  lemma PgexFilenameShape(q: QueryRun, home: string, timestamp: string)
    ensures var base := BaseName(ReplaceFirst(q.originalFilename, "~", home));
      var name := Split(base, ".")[0];
      && PgexFilename(q, home, timestamp) == timestamp + "_" + name + ".pgex"
      && '.' !in name && '/' !in name
      && |name| <= |base| && base[..|name|] == name
      && (|name| < |base| ==> base[|name|] == '.')
    ensures (&& |timestamp| == 14 && (forall k :: 0 <= k < 14 ==> IsDigit(timestamp[k]))
             && '\n' !in q.originalFilename && '\n' !in home) ==>
      MatchesEntryPattern(PgexFilename(q, home, timestamp))
  {
    var filePath := ReplaceFirst(q.originalFilename, "~", home);
    var base := BaseName(filePath);
    var name := Split(base, ".")[0];
    FirstDotPiece(base);
    assert forall c :: c in name ==> c in base by {
      assert name == base[..|name|];
    }
    if && |timestamp| == 14 && (forall k :: 0 <= k < 14 ==> IsDigit(timestamp[k]))
       && '\n' !in q.originalFilename && '\n' !in home {
      var k :| 0 <= k <= |filePath| && base == filePath[k..];
      assert forall c :: c in base ==> c in filePath;
      EntryShape(timestamp, name);
    }
  }

}
