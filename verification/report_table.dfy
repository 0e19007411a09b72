/**
 * The detailed developer-experience table of the report: a Markdown table with one row per
 * scenario of every tool, the tool's name shown only on the first row of its block.
 */
module ReportTable {
  import opened Wrappers
  import opened ReportSeries

  const Header: string := "| Tool | Scenario | Description | Success |\n"
  const Separator: string := "|------|----------|-------------|--------|\n"
  const SuccessIcon: string := "✅"
  const FailureIcon: string := "❌"

  /** The cells of one table row. */
  datatype Row = Row(tool: string, scenario: string, description: string, success: bool)

  /** The icon of the success cell. */
  function Icon(success: bool): string {
    if success then SuccessIcon else FailureIcon
  }

  /** The f-string of one table line. */
  function Line(tool: string, scenario: string, description: string, icon: string): (line: string)
    ensures |line| == |tool| + |scenario| + |description| + |icon| + 14
    ensures line[..2] == "| " && line[|line| - 3..] == " |\n"
  {
    "| " + tool + " | " + scenario + " | " + description + " | " + icon + " |\n"
  }

  /** One row as a Markdown line. */
  function RenderRow(r: Row): string {
    Line(r.tool, r.scenario, r.description, Icon(r.success))
  }

  /** The rows as consecutive Markdown lines. */
  function RenderRows(rows: seq<Row>): string {
    if rows == [] then ""
    else RenderRows(rows[..|rows| - 1]) + RenderRow(rows[|rows| - 1])
  }

  /** The row for the `i`-th scenario of `tool`: the tool cell is filled only on row 0, missing
      names and descriptions show as empty, and only a true "success" shows as passed. */
  function ScenarioRow(tool: string, i: nat, s: ScenarioEntry): (r: Row)
    ensures r.tool != "" ==> i == 0 && r.tool == tool
    ensures s.name == None ==> r.scenario == ""
    ensures s.description == None ==> r.description == ""
    ensures r.success <==> s.success == Some(true)
  {
    Row(if i == 0 then tool else "", s.name.GetOr(""), s.description.GetOr(""), Succeeded(s))
  }

  /** The block of rows for one tool. */
  function ToolRows(tool: string, scenarios: seq<ScenarioEntry>): (rows: seq<Row>)
    ensures |rows| == |scenarios|
  {
    seq(|scenarios|, i requires 0 <= i < |scenarios| => ScenarioRow(tool, i, scenarios[i]))
  }

  /** All blocks, tools in document order. */
  function TableRows(dx: seq<(string, DxEntry)>): seq<Row> {
    if dx == [] then []
    else
      var last := dx[|dx| - 1];
      TableRows(dx[..|dx| - 1]) + ToolRows(last.0, ScenariosOf(last.1))
  }

  /** The number of scenarios across all tools. */
  function TotalScenarios(dx: seq<(string, DxEntry)>): nat {
    if dx == [] then 0
    else TotalScenarios(dx[..|dx| - 1]) + |ScenariosOf(dx[|dx| - 1].1)|
  }

  /** The text `format_dx_results_table` returns: empty for an absent or empty document,
      otherwise the header line, the separator line and one line per row. */
  function DxTable(dx: Option<seq<(string, DxEntry)>>): string {
    if dx == None || dx.value == [] then ""
    else Header + Separator + RenderRows(TableRows(dx.value))
  }

  lemma {:induction false} RenderRowsAppend(a: seq<Row>, b: seq<Row>)
    ensures RenderRows(a + b) == RenderRows(a) + RenderRows(b)
    decreases |b|
  {
    if b == [] {
      assert a + b == a;
    } else {
      var b', last := b[..|b| - 1], b[|b| - 1];
      var ab := a + b;
      assert ab[..|ab| - 1] == a + b';
      assert ab[|ab| - 1] == last;
      RenderRowsAppend(a, b');
      Associative(RenderRows(a), RenderRows(b'), RenderRow(last));
      calc {
        RenderRows(ab);
        RenderRows(a + b') + RenderRow(last);
        (RenderRows(a) + RenderRows(b')) + RenderRow(last);
        RenderRows(a) + (RenderRows(b') + RenderRow(last));
        RenderRows(a) + RenderRows(b);
      }
    }
  }

  lemma Associative(a: string, b: string, c: string)
    ensures (a + b) + c == a + (b + c)
  {
  }

  /** Adding scenario `i` to a tool's block adds its line at the end. */
  lemma ExtendBlock(tool: string, scenarios: seq<ScenarioEntry>, i: nat)
    requires i < |scenarios|
    ensures RenderRows(ToolRows(tool, scenarios[..i + 1])) ==
      RenderRows(ToolRows(tool, scenarios[..i])) + RenderRow(ScenarioRow(tool, i, scenarios[i]))
  {
    assert ToolRows(tool, scenarios[..i + 1]) == ToolRows(tool, scenarios[..i]) + [ScenarioRow(tool, i, scenarios[i])];
    RenderRowsAppend(ToolRows(tool, scenarios[..i]), [ScenarioRow(tool, i, scenarios[i])]);
  }

  /** Adding tool `t` to the table adds its whole block at the end. */
  lemma ExtendTable(results: seq<(string, DxEntry)>, t: nat)
    requires t < |results|
    ensures RenderRows(TableRows(results[..t + 1])) ==
      RenderRows(TableRows(results[..t])) + RenderRows(ToolRows(results[t].0, ScenariosOf(results[t].1)))
  {
    assert results[..t + 1][..t] == results[..t];
    assert TableRows(results[..t + 1]) == TableRows(results[..t]) + ToolRows(results[t].0, ScenariosOf(results[t].1));
    RenderRowsAppend(TableRows(results[..t]), ToolRows(results[t].0, ScenariosOf(results[t].1)));
  }

  /** `format_dx_results_table`: builds the table line by line. */
  method FormatDxResultsTable(dx: Option<seq<(string, DxEntry)>>) returns (table: string)
    ensures table == DxTable(dx)
  {
    if dx == None || dx.value == [] {
      return "";
    }
    var results := dx.value;
    table := Header;
    table := table + Separator;
    for t := 0 to |results|
      invariant table == Header + Separator + RenderRows(TableRows(results[..t]))
    {
      var tool := results[t].0;
      var scenarios := ScenariosOf(results[t].1);
      ghost var before := table;
      for i := 0 to |scenarios|
        invariant table == before + RenderRows(ToolRows(tool, scenarios[..i]))
      {
        var scenario := scenarios[i];
        var toolCell := if i == 0 then tool else "";
        var successIcon := if scenario.success.GetOr(false) then SuccessIcon else FailureIcon;
        var line := Line(toolCell, scenario.name.GetOr(""), scenario.description.GetOr(""), successIcon);
        assert line == RenderRow(ScenarioRow(tool, i, scenario));
        ExtendBlock(tool, scenarios, i);
        Associative(before, RenderRows(ToolRows(tool, scenarios[..i])), line);
        table := table + line;
      }
      assert scenarios[..|scenarios|] == scenarios;
      ExtendTable(results, t);
      Associative(Header + Separator, RenderRows(TableRows(results[..t])), RenderRows(ToolRows(tool, scenarios)));
    }
    assert results[..|results|] == results;
  }

  /** An absent or empty document renders as the empty string; any other starts with the
      header and separator lines. */
  lemma TableFraming(dx: Option<seq<(string, DxEntry)>>)
    ensures dx == None || dx.value == [] <==> DxTable(dx) == ""
    ensures dx != None && dx.value != [] ==> DxTable(dx)[..|Header + Separator|] == Header + Separator
  {
  }

  /** One row per scenario: the table has as many rows as there are scenarios in all. */
  lemma {:induction false} RowCount(dx: seq<(string, DxEntry)>)
    ensures |TableRows(dx)| == TotalScenarios(dx)
  {
    if dx != [] {
      RowCount(dx[..|dx| - 1]);
    }
  }

  /** Row `TotalScenarios(dx[..t]) + i` of the table belongs to scenario `i` of the `t`-th tool:
      tools appear in document order and scenarios in list order. Its tool cell holds the
      tool's name on the block's first row only, its name and description come from the
      scenario (empty when missing), and it shows success exactly when "success" is true. */
  lemma {:induction false} RowAt(dx: seq<(string, DxEntry)>, t: nat, i: nat)
    requires t < |dx| && i < |ScenariosOf(dx[t].1)|
    ensures TotalScenarios(dx[..t]) + i < |TableRows(dx)|
    ensures var row := TableRows(dx)[TotalScenarios(dx[..t]) + i];
      var s := ScenariosOf(dx[t].1)[i];
      && row.tool == (if i == 0 then dx[t].0 else "")
      && row.scenario == s.name.GetOr("")
      && row.description == s.description.GetOr("")
      && (row.success <==> s.success == Some(true))
  {
    var init := dx[..|dx| - 1];
    RowCount(init);
    RowCount(dx);
    if t == |dx| - 1 {
      assert dx[..t] == init;
    } else {
      assert init[..t] == dx[..t];
      RowAt(init, t, i);
    }
  }
}
