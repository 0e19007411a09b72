/**
 * The reproducibility tester: each tool's install script is run several times in fresh
 * directories, the installed package set of every run is fingerprinted, and the tool counts
 * as reproducible when every run yields the same fingerprint.
 *
 * Processes are not run here: what one iteration observes (the install script's outcome,
 * whether the virtualenv exists, what `pip freeze | sort` printed and its exit code) is
 * supplied by `observe`, and the MD5 hex digest is the parameter `digest`.
 */
module Reproducibility {
  import opened Wrappers

  /** The tools `main` tests, in the order it tests them. */
  const Tools: seq<string> := ["make", "poetry", "piptools", "uv"]

  /** Iterations per tool when `main` runs the tester. */
  const DefaultIterations: nat := 3

  /** How a finished process ended. */
  datatype Process = Process(returncode: int, stdout: string, stderr: string)

  /** The record `run_command` returns for one run of a command. */
  datatype RunOutput = RunOutput(command: string, returncode: int, stdout: string, stderr: string)

  /** What one iteration observes: the install script's process, whether `.venv` exists
      afterwards, and the process of `pip freeze | sort` run with that virtualenv. */
  datatype Observation = Observation(install: Process, venvExists: bool, freeze: Process)

  /** The condensed per-iteration record kept in the report. */
  datatype RunRecord = RunRecord(returncode: int, error: Option<string>)

  /** The report `test_tool_reproducibility` returns for one tool. */
  datatype ToolReport = ToolReport(
    tool: string,
    reproducible: bool,
    hashes: seq<Option<string>>,
    results: seq<RunRecord>)

  /** `run_command`: the command is recorded together with how its process ended. */
  function RunCommand(command: string, p: Process): (r: RunOutput)
    ensures r.command == command
    ensures r.returncode == p.returncode && r.stdout == p.stdout && r.stderr == p.stderr
  {
    RunOutput(command, p.returncode, p.stdout, p.stderr)
  }

  /** The command line that runs a tool's install script. */
  function InstallCommand(tool: string): string {
    "./scripts/install_" + tool + ".sh"
  }

  /** `get_env_hash`: no fingerprint when the virtualenv is missing or the freeze command
      fails; otherwise the digest of the sorted freeze listing. */
  function EnvHash(venvExists: bool, freeze: Process, digest: string -> string): (h: Option<string>)
    ensures h == None <==> !venvExists || freeze.returncode != 0
    ensures h != None ==> h.value == digest(freeze.stdout)
  {
    if !venvExists then None
    else if freeze.returncode != 0 then None
    else Some(digest(freeze.stdout))
  }

  /** The verdict as the tester computes it: exactly one distinct value among the hashes,
      and no hash missing. */
  predicate IsReproducible(hashes: seq<Option<string>>)
    ensures IsReproducible(hashes) ==> |hashes| > 0 && None !in hashes
    ensures IsReproducible(hashes) ==> forall i :: 0 <= i < |hashes| ==> hashes[i] == hashes[0]
  {
    OneDistinctValue(hashes);
    |set h | h in hashes| == 1 && None !in hashes
  }

  /** A list whose set of values has exactly one element is non-empty and constant. */
  lemma OneDistinctValue(hashes: seq<Option<string>>)
    ensures |set h | h in hashes| == 1 ==> |hashes| > 0 && forall i :: 0 <= i < |hashes| ==> hashes[i] == hashes[0]
  {
    var distinct := set h | h in hashes;
    if |distinct| == 1 {
      var x :| x in distinct;
      assert |distinct - {x}| == 0;
      assert distinct == {x};
      forall i | 0 <= i < |hashes| ensures hashes[i] == x {
        assert hashes[i] in distinct;
      }
    }
  }

  /** Independent reading of the verdict: at least one run, every hash present, all equal. */
  ghost predicate AllPresentAndEqual(hashes: seq<Option<string>>) {
    && |hashes| > 0
    && (forall i :: 0 <= i < |hashes| ==> hashes[i].Some?)
    && (forall i, j :: 0 <= i < |hashes| && 0 <= j < |hashes| ==> hashes[i] == hashes[j])
  }

  /** The verdict holds exactly when the list is non-empty, holds no missing hash and all its
      entries are equal. */
  lemma ReproducibleIff(hashes: seq<Option<string>>)
    ensures IsReproducible(hashes) <==> AllPresentAndEqual(hashes)
  {
    var distinct := set h | h in hashes;
    if AllPresentAndEqual(hashes) {
      assert distinct == {hashes[0]} by {
        forall h | h in distinct ensures h == hashes[0] {
          var i :| 0 <= i < |hashes| && hashes[i] == h;
        }
      }
    }
  }

  /** The examples the verdict is meant to decide: three equal hashes are reproducible; a
      missing hash, three distinct hashes, or only missing hashes are not. */
  lemma VerdictExamples(h: string, h1: string, h2: string, h3: string)
    requires h1 != h2 && h2 != h3 && h1 != h3
    ensures IsReproducible([Some(h), Some(h), Some(h)])
    ensures !IsReproducible([Some(h), Some(h), None])
    ensures !IsReproducible([Some(h1), Some(h2), Some(h3)])
    ensures !IsReproducible([None, None, None])
    ensures !IsReproducible([])
  {
    ReproducibleIff([Some(h), Some(h), Some(h)]);
    var distinct := [Some(h1), Some(h2), Some(h3)];
    ReproducibleIff(distinct);
    assert distinct[0] != distinct[1];
    ReproducibleIff([]);
  }

  /** The per-run record: the return code, and stderr kept only for a failed run. */
  function Condense(r: RunOutput): (c: RunRecord)
    ensures c.returncode == r.returncode
    ensures c.error != None <==> r.returncode != 0
    ensures c.error != None ==> c.error.value == r.stderr
  {
    RunRecord(r.returncode, if r.returncode != 0 then Some(r.stderr) else None)
  }

  /** The result-record comprehension over all runs, in run order. */
  function CondenseAll(runs: seq<RunOutput>): (cs: seq<RunRecord>)
    ensures |cs| == |runs|
    ensures forall i :: 0 <= i < |runs| ==> cs[i] == Condense(runs[i])
  {
    seq(|runs|, i requires 0 <= i < |runs| => Condense(runs[i]))
  }

  /** The report the tester produces for `tool` after `iterations` runs: the specification the
      loop in `TestToolReproducibility` is proved against. */
  function ReportFor(tool: string, iterations: nat, observe: nat -> Observation, digest: string -> string): ToolReport {
    var runs := seq(iterations, i requires 0 <= i => RunCommand(InstallCommand(tool), observe(i).install));
    var hashes := seq(iterations, i requires 0 <= i => EnvHash(observe(i).venvExists, observe(i).freeze, digest));
    ToolReport(tool, IsReproducible(hashes), hashes, CondenseAll(runs))
  }

  /** `test_tool_reproducibility`: runs the install flow `iterations` times, appending each
      run's output and fingerprint, then states the verdict and condenses the runs. */
  method TestToolReproducibility(tool: string, iterations: nat, observe: nat -> Observation, digest: string -> string)
    returns (report: ToolReport)
    ensures report == ReportFor(tool, iterations, observe, digest)
  {
    var results: seq<RunOutput> := [];
    var hashes: seq<Option<string>> := [];
    var i := 0;
    while i < iterations
      invariant 0 <= i <= iterations
      invariant |results| == i && |hashes| == i
      invariant forall k :: 0 <= k < i ==> results[k] == RunCommand(InstallCommand(tool), observe(k).install)
      invariant forall k :: 0 <= k < i ==> hashes[k] == EnvHash(observe(k).venvExists, observe(k).freeze, digest)
    {
      var o := observe(i);
      var result := RunCommand(InstallCommand(tool), o.install);
      results := results + [result];
      var envHash := EnvHash(o.venvExists, o.freeze, digest);
      hashes := hashes + [envHash];
      i := i + 1;
    }
    assert hashes == seq(iterations, k requires 0 <= k => EnvHash(observe(k).venvExists, observe(k).freeze, digest));
    assert results == seq(iterations, k requires 0 <= k => RunCommand(InstallCommand(tool), observe(k).install));
    var isReproducible := |set h | h in hashes| == 1 && None !in hashes;
    report := ToolReport(tool, isReproducible, hashes, CondenseAll(results));
  }

  /** The report names the tool, holds one hash and one record per iteration in iteration
      order, and keeps the hash list unchanged. */
  lemma ReportShape(tool: string, iterations: nat, observe: nat -> Observation, digest: string -> string, k: nat)
    requires k < iterations
    ensures var r := ReportFor(tool, iterations, observe, digest);
      && r.tool == tool
      && |r.hashes| == iterations && |r.results| == iterations
      && r.hashes[k] == EnvHash(observe(k).venvExists, observe(k).freeze, digest)
      && r.results[k].returncode == observe(k).install.returncode
      && (r.results[k].error != None <==> observe(k).install.returncode != 0)
      && (r.results[k].error != None ==> r.results[k].error.value == observe(k).install.stderr)
  {
  }

  /** With no iterations there are no hashes, so the tool is never reproducible. */
  lemma ZeroIterationsNotReproducible(tool: string, observe: nat -> Observation, digest: string -> string)
    ensures !ReportFor(tool, 0, observe, digest).reproducible
    ensures ReportFor(tool, 0, observe, digest).hashes == []
  {
    var hashes: seq<Option<string>> := [];
    assert (set h | h in hashes) == {};
  }

  /** A tool is reproducible exactly when there was at least one iteration, every iteration left
      a virtualenv whose freeze succeeded, and all freeze listings have the same digest. */
  lemma ReportVerdict(tool: string, iterations: nat, observe: nat -> Observation, digest: string -> string)
    ensures ReportFor(tool, iterations, observe, digest).reproducible <==>
      && iterations > 0
      && (forall k: nat :: k < iterations ==> observe(k).venvExists && observe(k).freeze.returncode == 0)
      && (forall k: nat :: k < iterations ==> digest(observe(k).freeze.stdout) == digest(observe(0).freeze.stdout))
  {
    var hashes := ReportFor(tool, iterations, observe, digest).hashes;
    ReproducibleIff(hashes);
    if AllPresentAndEqual(hashes) {
      forall k: nat | k < iterations
        ensures observe(k).venvExists && observe(k).freeze.returncode == 0
        ensures digest(observe(k).freeze.stdout) == digest(observe(0).freeze.stdout)
      {
        assert hashes[k].Some? && hashes[k] == hashes[0];
      }
    }
  }

  /** `main`: one report per tool of `Tools`, keyed by the tool's name, in `Tools` order.
      `observeFor(t)` is what the iterations of tool `t` observe. */
  method RunAll(observeFor: string -> nat -> Observation, digest: string -> string)
    returns (results: seq<(string, ToolReport)>)
    ensures |results| == |Tools|
    ensures forall i :: 0 <= i < |Tools| ==>
      results[i].0 == Tools[i] &&
      results[i].1 == ReportFor(Tools[i], DefaultIterations, observeFor(Tools[i]), digest)
  {
    results := [];
    for i := 0 to |Tools|
      invariant |results| == i
      invariant forall k :: 0 <= k < i ==>
        results[k].0 == Tools[k] &&
        results[k].1 == ReportFor(Tools[k], DefaultIterations, observeFor(Tools[k]), digest)
    {
      var tool := Tools[i];
      var report := TestToolReproducibility(tool, DefaultIterations, observeFor(tool), digest);
      results := results + [(tool, report)];
    }
  }

  /** The tool names `main` reports under are pairwise distinct, so no report overwrites another. */
  lemma ToolsDistinct()
    ensures forall i, j :: 0 <= i < j < |Tools| ==> Tools[i] != Tools[j]
  {
  }
}
