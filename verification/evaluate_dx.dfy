/**
 * The developer-experience evaluator: for one tool it prepares an environment, then runs the
 * tool's command for each scenario of a fixed table and records how each command ended.
 *
 * Processes are not run here. How the setup step ended is the parameter `setup`, and how the
 * command of the scenario at position `k` of `DxScenarios` ended is `outcomes(k)`.
 */
module EvaluateDx {
  import opened Wrappers
  import Text

  /** One workflow of the table: its name, a description and a command per tool. */
  datatype Scenario = Scenario(name: string, description: string, commands: map<string, string>)

  /** The scenario table, in the order the evaluator runs it. */
  const DxScenarios: seq<Scenario> := [
    Scenario("add_dependency", "Add a new dependency", map[
      "poetry" := "poetry add pyyaml",
      "piptools" := "echo 'pyyaml' >> requirements.in && pip-compile requirements.in && pip install -r requirements.txt",
      "uv" := "uv pip install pyyaml",
      "make" := "echo 'pyyaml' >> requirements.txt && make install"]),
    Scenario("remove_dependency", "Remove a dependency", map[
      "poetry" := "poetry remove black",
      "piptools" := "sed -i.bak '/black/d' requirements.in && pip-compile requirements.in && pip install -r requirements.txt",
      "uv" := "uv pip uninstall -y black",
      "make" := "sed -i.bak '/black/d' requirements.txt && make install"]),
    Scenario("install_specific_version", "Install a specific version of a package", map[
      "poetry" := "poetry add requests==2.25.1",
      "piptools" := "echo 'requests==2.25.1' >> requirements.in && pip-compile requirements.in && pip install -r requirements.txt",
      "uv" := "uv pip install requests==2.25.1",
      "make" := "echo 'requests==2.25.1' >> requirements.txt && make install"]),
    Scenario("resolve_conflict", "Resolve a dependency conflict", map[
      "poetry" := "poetry add flask==2.0.0 werkzeug==2.0.0",
      "piptools" := "echo 'flask==2.0.0' >> requirements.in && echo 'werkzeug==2.0.0' >> requirements.in && pip-compile requirements.in || echo 'Conflict detected'",
      "uv" := "uv pip install flask==2.0.0 werkzeug==2.0.0 || echo 'Conflict detected'",
      "make" := "echo 'flask==2.0.0' >> requirements.txt && echo 'werkzeug==2.0.0' >> requirements.txt && make install || echo 'Conflict detected'"]),
    Scenario("error_messages", "Test error message clarity with invalid package", map[
      "poetry" := "poetry add nonexistentpackage123456789",
      "piptools" := "echo 'nonexistentpackage123456789' >> requirements.in && pip-compile requirements.in",
      "uv" := "uv pip install nonexistentpackage123456789",
      "make" := "echo 'nonexistentpackage123456789' >> requirements.txt && make install"]),
    Scenario("upgrade_all", "Upgrade all dependencies", map[
      "poetry" := "poetry update",
      "piptools" := "pip-compile --upgrade requirements.in && pip install -r requirements.txt",
      "uv" := "uv pip install --upgrade -r requirements.txt",
      "make" := "pip install --upgrade -r requirements.txt"])
  ]

  /** The stderr recorded for a command that ran past its 120-second limit. */
  const TimeoutMessage: string := "Command timed out after 120 seconds"

  /** Prepended to commands that need the project's virtualenv. */
  const ActivatePrefix: string := "source .venv/bin/activate && "

  /** Longest stdout kept verbatim in a scenario record. */
  const OutputLimit: nat := 500

  /** Appended to a stdout cut at `OutputLimit` characters. */
  const Ellipsis: string := "..."

  /** How an attempt to run a command ended: the process finished, it timed out, or starting
      it raised an exception with a message. */
  datatype Outcome = Completed(returncode: int, stdout: string, stderr: string) | TimedOut | Raised(message: string)

  /** The record `run_command` returns. */
  datatype CommandResult = CommandResult(command: string, returncode: int, stdout: string, stderr: string, success: bool)

  /** `run_command`: a finished process is recorded as it ended; a timeout and (when
      `captureError` holds) an exception become a failed record with return code -1 and
      empty stdout; an exception with `captureError` off propagates (`Failure`). In every
      record, success means return code 0. */
  function RunCommand(command: string, outcome: Outcome, captureError: bool): (r: Result<CommandResult, string>)
    ensures r.Failure? <==> outcome.Raised? && !captureError
    ensures r.Failure? ==> r.error == outcome.message
    ensures r.Success? ==> r.value.command == command && (r.value.success <==> r.value.returncode == 0)
    ensures outcome.Completed? ==>
      r.value.returncode == outcome.returncode && r.value.stdout == outcome.stdout && r.value.stderr == outcome.stderr
    ensures outcome.TimedOut? ==>
      r.value.returncode == -1 && r.value.stdout == "" && r.value.stderr == TimeoutMessage && !r.value.success
    ensures outcome.Raised? && captureError ==>
      r.value.returncode == -1 && r.value.stdout == "" && r.value.stderr == outcome.message && !r.value.success
  {
    match outcome
    case Completed(rc, out, err) => Success(CommandResult(command, rc, out, err, rc == 0))
    case TimedOut => Success(CommandResult(command, -1, "", TimeoutMessage, false))
    case Raised(msg) =>
      if captureError then Success(CommandResult(command, -1, "", msg, false)) else Failure(msg)
  }

  /** `run_command` with its default `capture_error=True`, which never raises. */
  function Run(command: string, outcome: Outcome): CommandResult {
    RunCommand(command, outcome, true).value
  }

  /** The command line that runs a tool's install script. */
  function InstallCommand(tool: string): string {
    "./scripts/install_" + tool + ".sh"
  }

  /** `prepare_environment`: the result of running the tool's install script. */
  function PrepareEnvironment(tool: string, setup: Outcome): (r: CommandResult)
    ensures r.command == InstallCommand(tool)
    ensures r.success <==> setup.Completed? && setup.returncode == 0
  {
    Run(InstallCommand(tool), setup)
  }

  /** The scenario's command for `tool`; a missing entry and an empty command both count as
      none (Python's `if not command`). */
  function CommandFor(s: Scenario, tool: string): (c: Option<string>)
    ensures c != None <==> tool in s.commands && s.commands[tool] != ""
    ensures c != None ==> c.value == s.commands[tool]
  {
    if tool in s.commands && s.commands[tool] != "" then Some(s.commands[tool]) else None
  }

  /** The command mentions `pip-compile` or `pip install` somewhere. */
  ghost predicate MentionsPip(command: string) {
    (exists i: nat :: Text.OccursAt(command, "pip-compile", i)) ||
    (exists i: nat :: Text.OccursAt(command, "pip install", i))
  }

  /** The command as it is run: prefixed with the virtualenv activation when it uses
      `pip-compile` or `pip install` and the tool is not poetry, unchanged otherwise. */
  function Activated(tool: string, command: string): (r: string)
    ensures MentionsPip(command) && tool != "poetry" ==> r == ActivatePrefix + command
    ensures !(MentionsPip(command) && tool != "poetry") ==> r == command
  {
    Text.ContainsIffOccurs(command, "pip-compile");
    Text.ContainsIffOccurs(command, "pip install");
    if (Text.Contains(command, "pip-compile") || Text.Contains(command, "pip install")) && tool != "poetry" then
      ActivatePrefix + command
    else
      command
  }

  /** The recorded stdout: kept whole up to `OutputLimit` characters, otherwise its first
      `OutputLimit` characters followed by `Ellipsis`. */
  function TruncateOutput(s: string): (r: string)
    ensures |s| <= OutputLimit ==> r == s
    ensures |s| > OutputLimit ==> |r| == OutputLimit + |Ellipsis| && r[..OutputLimit] == s[..OutputLimit] && r[OutputLimit..] == Ellipsis
  {
    if |s| > OutputLimit then s[..OutputLimit] + Ellipsis else s
  }

  /** Truncating an already recorded output changes nothing, and a record is never longer
      than `OutputLimit + 3` characters. */
  lemma TruncateIdempotent(s: string)
    ensures TruncateOutput(TruncateOutput(s)) == TruncateOutput(s)
    ensures |TruncateOutput(s)| <= OutputLimit + |Ellipsis|
  {
    if |s| > OutputLimit {
      var r := TruncateOutput(s);
      assert r[..OutputLimit] + Ellipsis == r;
    }
  }

  /** What the evaluator records for one scenario run. */
  datatype ScenarioResult = ScenarioResult(
    name: string,
    description: string,
    command: string,
    success: bool,
    returncode: int,
    error: Option<string>,
    output: string)

  /** The per-scenario record: name and description from the table, the command as run, the
      outcome, stderr only on failure, and the truncated stdout. */
  function ScenarioRecord(s: Scenario, command: string, result: CommandResult): (r: ScenarioResult)
    ensures r.name == s.name && r.description == s.description && r.command == command
    ensures r.success == result.success && r.returncode == result.returncode
    ensures r.error != None <==> !result.success
    ensures r.error != None ==> r.error.value == result.stderr
    ensures r.output == TruncateOutput(result.stdout)
  {
    ScenarioResult(s.name, s.description, command, result.success, result.returncode,
      if !result.success then Some(result.stderr) else None,
      TruncateOutput(result.stdout))
  }

  /** The result of `evaluate_tool_dx` for one tool: either a setup error and no scenarios, or
      the scenario records. */
  datatype ToolDx = ToolDx(tool: string, scenarios: seq<ScenarioResult>, setupError: Option<string>)

  /** The record of the scenario at position `k` for `tool`, or none when the tool has no
      command for it. */
  function ScenarioRun(table: seq<Scenario>, tool: string, k: nat, outcomes: nat -> Outcome): (r: Option<ScenarioResult>)
    requires k < |table|
    ensures r == None <==> CommandFor(table[k], tool) == None
  {
    match CommandFor(table[k], tool)
    case None => None
    case Some(c) =>
      var command := Activated(tool, c);
      Some(ScenarioRecord(table[k], command, Run(command, outcomes(k))))
  }

  /** What each of the first `n` scenarios of `table` yields for `tool`: its record, or none
      when it is skipped. */
  function Runs(table: seq<Scenario>, tool: string, n: nat, outcomes: nat -> Outcome): (rs: seq<Option<ScenarioResult>>)
    requires n <= |table|
    ensures |rs| == n
  {
    seq(n, k requires 0 <= k < n => ScenarioRun(table, tool, k, outcomes))
  }

  /** The values present in `xs`, in order. */
  function Present<T>(xs: seq<Option<T>>): seq<T> {
    if xs == [] then []
    else
      Present(xs[..|xs| - 1]) +
      match xs[|xs| - 1]
      case None => []
      case Some(x) => [x]
  }

  /** The positions of the values present in `xs`, in increasing order. */
  function PresentAt<T>(xs: seq<Option<T>>): seq<nat> {
    if xs == [] then []
    else PresentAt(xs[..|xs| - 1]) + if xs[|xs| - 1] == None then [] else [|xs| - 1]
  }

  /** The present positions lie in range, hold a value, strictly increase, and include every
      position holding a value. */
  lemma {:induction false} PresentAtFacts<T>(xs: seq<Option<T>>)
    ensures |PresentAt(xs)| <= |xs|
    ensures forall m :: 0 <= m < |PresentAt(xs)| ==> PresentAt(xs)[m] < |xs| && xs[PresentAt(xs)[m]] != None
    ensures forall m, m' :: 0 <= m < m' < |PresentAt(xs)| ==> PresentAt(xs)[m] < PresentAt(xs)[m']
    ensures forall k: nat :: k < |xs| ==> (k in PresentAt(xs) <==> xs[k] != None)
  {
    if xs != [] {
      var n := |xs| - 1;
      var init := xs[..n];
      PresentAtFacts(init);
      var ps := PresentAt(init);
      forall m | 0 <= m < |ps| ensures xs[ps[m]] != None {
        assert init[ps[m]] == xs[ps[m]];
      }
      forall k: nat | k < n ensures (k in ps <==> xs[k] != None) {
        assert init[k] == xs[k];
      }
      if xs[n] == None {
        assert PresentAt(xs) == ps;
      } else {
        assert PresentAt(xs) == ps + [n];
      }
    }
  }

  /** The m-th present value is the value at the m-th present position. */
  lemma {:induction false} PresentInOrder<T>(xs: seq<Option<T>>)
    ensures |Present(xs)| == |PresentAt(xs)|
    ensures forall m :: 0 <= m < |PresentAt(xs)| ==>
      PresentAt(xs)[m] < |xs| && xs[PresentAt(xs)[m]] == Some(Present(xs)[m])
  {
    PresentAtFacts(xs);
    if xs != [] {
      var n := |xs| - 1;
      var init := xs[..n];
      PresentInOrder(init);
      PresentAtFacts(init);
      var vs, ps := Present(init), PresentAt(init);
      forall m | 0 <= m < |ps| ensures xs[ps[m]] == Some(vs[m]) {
        assert init[ps[m]] == xs[ps[m]];
      }
      if xs[n] == None {
        assert Present(xs) == vs;
        assert PresentAt(xs) == ps;
      } else {
        assert Present(xs) == vs + [xs[n].value];
        assert PresentAt(xs) == ps + [n];
      }
    }
  }

  /** When every entry holds a value, all of them are present, in order. */
  lemma {:induction false} AllPresent<T>(xs: seq<Option<T>>)
    requires forall k :: 0 <= k < |xs| ==> xs[k] != None
    ensures |Present(xs)| == |xs|
    ensures forall k :: 0 <= k < |xs| ==> Present(xs)[k] == xs[k].value
  {
    if xs != [] {
      var n := |xs| - 1;
      AllPresent(xs[..n]);
      assert Present(xs) == Present(xs[..n]) + [xs[n].value];
    }
  }

  /** The records collected after the first `n` scenarios of `table`. */
  function Collected(table: seq<Scenario>, tool: string, n: nat, outcomes: nat -> Outcome): seq<ScenarioResult>
    requires n <= |table|
  {
    Present(Runs(table, tool, n, outcomes))
  }

  /** Running scenario `n` appends its record, if any. */
  lemma CollectedStep(table: seq<Scenario>, tool: string, n: nat, outcomes: nat -> Outcome)
    requires n < |table|
    ensures Collected(table, tool, n + 1, outcomes) ==
      Collected(table, tool, n, outcomes) +
      match ScenarioRun(table, tool, n, outcomes)
      case None => []
      case Some(r) => [r]
  {
    var rs := Runs(table, tool, n + 1, outcomes);
    assert rs[..n] == Runs(table, tool, n, outcomes);
  }

  /** What `evaluate_tool_dx` returns: the specification the loop in `EvaluateToolDx` is
      proved against. */
  function Evaluation(tool: string, setup: Outcome, outcomes: nat -> Outcome): ToolDx {
    var setupResult := PrepareEnvironment(tool, setup);
    if !setupResult.success then ToolDx(tool, [], Some(setupResult.stderr))
    else ToolDx(tool, Collected(DxScenarios, tool, |DxScenarios|, outcomes), None)
  }

  /** `evaluate_tool_dx`: prepares the environment, stops with the setup error if that fails,
      and otherwise runs each scenario that has a command for the tool, in table order. */
  method EvaluateToolDx(tool: string, setup: Outcome, outcomes: nat -> Outcome) returns (results: ToolDx)
    ensures results == Evaluation(tool, setup, outcomes)
  {
    results := ToolDx(tool, [], None);
    var setupResult := PrepareEnvironment(tool, setup);
    if !setupResult.success {
      results := results.(setupError := Some(setupResult.stderr));
      return;
    }
    for k := 0 to |DxScenarios|
      invariant results == ToolDx(tool, Collected(DxScenarios, tool, k, outcomes), None)
    {
      CollectedStep(DxScenarios, tool, k, outcomes);
      var scenario := DxScenarios[k];
      var entry := CommandFor(scenario, tool);
      if entry == None {
        continue;
      }
      var command := entry.value;
      if Text.Contains(command, "pip-compile") || Text.Contains(command, "pip install") {
        if tool != "poetry" {
          command := ActivatePrefix + command;
        }
      }
      var result := Run(command, outcomes(k));
      var scenarioResult := ScenarioRecord(scenario, command, result);
      results := results.(scenarios := results.scenarios + [scenarioResult]);
    }
  }

  /** A failed setup yields its stderr as the setup error and no scenario records; a successful
      one yields no setup error. Setup fails unless the install script finished with code 0. */
  lemma SetupShortCircuit(tool: string, setup: Outcome, outcomes: nat -> Outcome)
    ensures Evaluation(tool, setup, outcomes).tool == tool
    ensures !(setup.Completed? && setup.returncode == 0) ==>
      Evaluation(tool, setup, outcomes).setupError == Some(PrepareEnvironment(tool, setup).stderr) &&
      Evaluation(tool, setup, outcomes).scenarios == []
    ensures setup.Completed? && setup.returncode == 0 ==>
      Evaluation(tool, setup, outcomes).setupError == None
  {
  }

  /** The records are exactly those of the scenarios the tool has a command for, in table
      order: the m-th record comes from the m-th such scenario, those scenarios' positions
      strictly increase, and a scenario is skipped only when the tool has no command for it. */
  lemma CollectedInOrder(table: seq<Scenario>, tool: string, n: nat, outcomes: nat -> Outcome)
    requires n <= |table|
    ensures var ps := PresentAt(Runs(table, tool, n, outcomes));
      && |Collected(table, tool, n, outcomes)| == |ps| <= n
      && (forall m :: 0 <= m < |ps| ==>
            ps[m] < n && ScenarioRun(table, tool, ps[m], outcomes) == Some(Collected(table, tool, n, outcomes)[m]))
      && (forall m, m' :: 0 <= m < m' < |ps| ==> ps[m] < ps[m'])
      && (forall k: nat :: k < n ==> (k in ps <==> CommandFor(table[k], tool) != None))
  {
    PresentAtFacts(Runs(table, tool, n, outcomes));
    PresentInOrder(Runs(table, tool, n, outcomes));
  }

  /** At most one record per scenario of the table. */
  lemma AtMostSixScenarios(tool: string, setup: Outcome, outcomes: nat -> Outcome)
    ensures |Evaluation(tool, setup, outcomes).scenarios| <= |DxScenarios| == 6
  {
    CollectedInOrder(DxScenarios, tool, |DxScenarios|, outcomes);
  }

  /** The table gives every scenario a command for poetry, piptools, uv and make. */
  lemma EveryScenarioCoversKnownTools(tool: string, k: nat)
    requires tool in {"poetry", "piptools", "uv", "make"}
    requires k < |DxScenarios|
    ensures CommandFor(DxScenarios[k], tool) != None
  {
  }

  /** For the four benchmarked tools a successful setup records all six scenarios, in table
      order. */
  lemma KnownToolsRunAllScenarios(tool: string, setup: Outcome, outcomes: nat -> Outcome)
    requires tool in {"poetry", "piptools", "uv", "make"}
    requires setup.Completed? && setup.returncode == 0
    ensures |Evaluation(tool, setup, outcomes).scenarios| == |DxScenarios|
    ensures forall k :: 0 <= k < |DxScenarios| ==>
      Evaluation(tool, setup, outcomes).scenarios[k].name == DxScenarios[k].name
  {
    forall k: nat | k < |DxScenarios| ensures CommandFor(DxScenarios[k], tool) != None {
      EveryScenarioCoversKnownTools(tool, k);
    }
    AllCollected(DxScenarios, tool, |DxScenarios|, outcomes);
  }

  /** When a tool has a command in every scenario of `table`, no scenario is skipped. */
  lemma AllCollected(table: seq<Scenario>, tool: string, n: nat, outcomes: nat -> Outcome)
    requires n <= |table|
    requires forall k: nat :: k < |table| ==> CommandFor(table[k], tool) != None
    ensures |Collected(table, tool, n, outcomes)| == n
    ensures forall k :: 0 <= k < n ==> Collected(table, tool, n, outcomes)[k].name == table[k].name
  {
    var rs := Runs(table, tool, n, outcomes);
    AllPresent(rs);
  }

  /** Every record's fields agree with each other and with the table: success is return code 0,
      an error is present exactly on failure, the output is the truncated stdout, and the
      command is the table's command with the activation prefix exactly when it is due. */
  lemma ScenarioRunFields(tool: string, k: nat, outcomes: nat -> Outcome)
    requires k < |DxScenarios|
    requires ScenarioRun(DxScenarios, tool, k, outcomes) != None
    ensures var r := ScenarioRun(DxScenarios, tool, k, outcomes).value;
      var original := DxScenarios[k].commands[tool];
      && tool in DxScenarios[k].commands && original != ""
      && r.name == DxScenarios[k].name
      && (r.success <==> r.returncode == 0)
      && (r.error != None <==> !r.success)
      && |r.output| <= OutputLimit + |Ellipsis|
      && (MentionsPip(original) && tool != "poetry" ==> r.command == ActivatePrefix + original)
      && (!(MentionsPip(original) && tool != "poetry") ==> r.command == original)
  {
    var r := ScenarioRun(DxScenarios, tool, k, outcomes).value;
    var command := Activated(tool, DxScenarios[k].commands[tool]);
    TruncateIdempotent(Run(command, outcomes(k)).stdout);
  }

  /** A scenario command that times out is recorded as a failure with return code -1, the
      timeout message as error and empty output. */
  lemma TimedOutScenario(tool: string, k: nat, outcomes: nat -> Outcome)
    requires k < |DxScenarios|
    requires ScenarioRun(DxScenarios, tool, k, outcomes) != None
    requires outcomes(k) == TimedOut
    ensures var r := ScenarioRun(DxScenarios, tool, k, outcomes).value;
      !r.success && r.returncode == -1 && r.error == Some(TimeoutMessage) && r.output == ""
  {
  }

  /** uv's `uv pip install` commands are run inside the virtualenv; poetry's commands never are. */
  lemma ActivationExamples(command: string)
    ensures Activated("uv", "uv pip install pyyaml") == ActivatePrefix + "uv pip install pyyaml"
    ensures Activated("poetry", command) == command
  {
    assert Text.OccursAt("uv pip install pyyaml", "pip install", 3);
  }
}
