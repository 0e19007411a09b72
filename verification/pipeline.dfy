/**
 * From the DX evaluator to the report: the evaluator's per-tool results, saved as the DX
 * document under their tool names, are what the report generator reads back.
 */
module Pipeline {
  import opened Wrappers
  import EvaluateDx
  import ReportSeries
  import ReportSummary

  /** One tool's evaluator result as the report reads it back from the document: every
      scenario keeps its name, description and success flag. */
  function ToEntry(r: EvaluateDx.ToolDx): (e: ReportSeries.DxEntry)
    ensures |ReportSeries.ScenariosOf(e)| == |r.scenarios|
    ensures forall i :: 0 <= i < |r.scenarios| ==>
      var s := ReportSeries.ScenariosOf(e)[i];
      && s.name == Some(r.scenarios[i].name)
      && s.description == Some(r.scenarios[i].description)
      && (ReportSeries.Succeeded(s) <==> r.scenarios[i].success)
  {
    ReportSeries.DxEntry(Some(seq(|r.scenarios|, i requires 0 <= i < |r.scenarios| =>
      ReportSeries.ScenarioEntry(Some(r.scenarios[i].name), Some(r.scenarios[i].description), Some(r.scenarios[i].success)))))
  }

  /** The DX document for `tools` evaluated tool by tool, each with its own setup outcome from
      `setups` and its own scenario outcomes `outcomesFor(tool)`. */
  function DxDocument(tools: seq<string>, setups: seq<EvaluateDx.Outcome>, outcomesFor: string -> nat -> EvaluateDx.Outcome): (doc: seq<(string, ReportSeries.DxEntry)>)
    requires |tools| == |setups|
    ensures |doc| == |tools|
    ensures forall i :: 0 <= i < |tools| ==> doc[i].0 == tools[i]
  {
    seq(|tools|, i requires 0 <= i < |tools| => (tools[i], ToEntry(EvaluateDx.Evaluation(tools[i], setups[i], outcomesFor(tools[i])))))
  }

  /** When no tool's environment can be set up, every entry of the DX document has an empty
      scenario list: the report as written raises on the document, while the intended report
      omits the best and worst DX callouts. */
  lemma {:induction false} AllSetupsFailing(tools: seq<string>, setups: seq<EvaluateDx.Outcome>, outcomesFor: string -> nat -> EvaluateDx.Outcome)
    requires |tools| == |setups| > 0
    requires forall i :: 0 <= i < |setups| ==> !(setups[i].Completed? && setups[i].returncode == 0)
    ensures var doc := DxDocument(tools, setups, outcomesFor);
      && ReportSummary.DxCalloutsAsWritten(Some(ReportSeries.DxRates(doc, |doc|))).Failure?
      && ReportSummary.DxCallouts(Some(ReportSeries.DxRates(doc, |doc|))) == None
  {
    var doc := DxDocument(tools, setups, outcomesFor);
    forall i | 0 <= i < |doc| ensures ReportSeries.ScenariosOf(doc[i].1) == [] {
      EvaluateDx.SetupShortCircuit(tools[i], setups[i], outcomesFor(tools[i]));
    }
    ReportSummary.EmptyScenariosBreakDxCallouts(doc);
  }
}
