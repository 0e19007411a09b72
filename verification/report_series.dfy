/**
 * The data half of the report's three chart helpers: each turns one loaded result document
 * into the per-tool series that is charted and then tabulated in the report. Drawing the
 * charts is not modelled.
 *
 * A JSON object is an insertion-ordered sequence of (key, value) pairs; a key that may be
 * missing is an `Option` field.
 */
module ReportSeries {
  import opened Wrappers

  // ---------------------------------------------------------------------------------------
  // Installation speed
  // ---------------------------------------------------------------------------------------

  /** One tool's entry under "results" in the installation document. */
  datatype InstallRecord = InstallRecord(executionTime: Option<real>)

  /** The installation document: its "results" object, if present, and whether it has any
      other key (such as "system_info"). */
  datatype InstallationDoc = InstallationDoc(results: Option<seq<(string, InstallRecord)>>, hasOtherKeys: bool)

  /** Python's `not data` for the document: no keys at all. */
  predicate IsEmptyDoc(d: InstallationDoc) {
    d.results == None && !d.hasOtherKeys
  }

  /** A tool paired with its installation time. */
  type Timing = (string, real)

  /** The time charted for a tool; a missing time counts as 0. */
  function TimeOf(r: InstallRecord): real {
    r.executionTime.GetOr(0.0)
  }

  /** The (tool, time) pairs of the document in document order; missing "results" is empty. */
  function Timings(d: InstallationDoc): (ts: seq<Timing>)
    ensures |ts| == |d.results.GetOr([])|
  {
    var entries := d.results.GetOr([]);
    seq(|entries|, i requires 0 <= i < |entries| => (entries[i].0, TimeOf(entries[i].1)))
  }

  /** The times are in ascending order. */
  predicate NonDecreasing(times: seq<real>) {
    forall i, j :: 0 <= i < j < |times| ==> times[i] <= times[j]
  }

  /** The times of the pairs, in order. */
  function TimesOf(s: seq<Timing>): (times: seq<real>)
    ensures |times| == |s| && forall i :: 0 <= i < |s| ==> times[i] == s[i].1
  {
    seq(|s|, i requires 0 <= i < |s| => s[i].1)
  }

  /** The pairs are in ascending order of time. */
  predicate SortedByTime(s: seq<Timing>) {
    NonDecreasing(TimesOf(s))
  }

  /** A pair no slower than every pair of a sorted list can go in front of it. */
  lemma PrependKeepsSorted(h: Timing, s: seq<Timing>)
    requires SortedByTime(s)
    requires forall j :: 0 <= j < |s| ==> h.1 <= s[j].1
    ensures SortedByTime([h] + s)
  {
    var t, ts := TimesOf([h] + s), TimesOf(s);
    forall i, j | 0 <= i < j < |t| ensures t[i] <= t[j] {
      assert t[j] == ts[j - 1];
      if i > 0 {
        assert t[i] == ts[i - 1];
      }
    }
  }

  /** Inserts `x` before the first pair that is not faster than it. */
  function InsertByTime(x: Timing, s: seq<Timing>): (r: seq<Timing>)
    ensures |r| == |s| + 1
    ensures multiset(r) == multiset(s) + multiset{x}
  {
    if s == [] || x.1 <= s[0].1 then [x] + s
    else
      assert s == [s[0]] + s[1..];
      [s[0]] + InsertByTime(x, s[1..])
  }

  /** A time below `x`'s and every time of `s` stays below every time after the insertion. */
  lemma {:induction false} InsertKeepsLowerBound(x: Timing, s: seq<Timing>, b: real)
    requires b <= x.1
    requires forall i :: 0 <= i < |s| ==> b <= s[i].1
    ensures forall j :: 0 <= j < |InsertByTime(x, s)| ==> b <= InsertByTime(x, s)[j].1
  {
    if s != [] && x.1 > s[0].1 {
      InsertKeepsLowerBound(x, s[1..], b);
      assert InsertByTime(x, s) == [s[0]] + InsertByTime(x, s[1..]);
    }
  }

  /** Inserting into a list sorted by time keeps it sorted. */
  lemma {:induction false} InsertKeepsSorted(x: Timing, s: seq<Timing>)
    requires SortedByTime(s)
    ensures SortedByTime(InsertByTime(x, s))
  {
    if s != [] && x.1 > s[0].1 {
      var rest := InsertByTime(x, s[1..]);
      InsertKeepsSorted(x, s[1..]);
      InsertKeepsLowerBound(x, s[1..], s[0].1);
      PrependKeepsSorted(s[0], rest);
      assert InsertByTime(x, s) == [s[0]] + rest;
    }
  }

  /** The installation times in ascending order (numpy's argsort); pairs with equal times may
      come out in any order, so only the order of times and the pairs themselves are fixed. */
  function SortByTime(s: seq<Timing>): (r: seq<Timing>)
    ensures |r| == |s|
    ensures SortedByTime(r)
    ensures multiset(r) == multiset(s)
  {
    if s == [] then []
    else
      assert s == [s[0]] + s[1..];
      InsertKeepsSorted(s[0], SortByTime(s[1..]));
      InsertByTime(s[0], SortByTime(s[1..]))
  }

  /** The tools and times of a list of pairs, zipped back together. */
  function Zip(tools: seq<string>, times: seq<real>): (z: seq<Timing>)
    requires |tools| == |times|
    ensures |z| == |tools|
  {
    seq(|tools|, i requires 0 <= i < |tools| => (tools[i], times[i]))
  }

  /** The data of `generate_installation_speed_chart`: nothing for an absent or empty document;
      otherwise the tools and their times ordered by ascending time, a permutation of the
      document's (tool, time) pairs with a missing time taken as 0. */
  method InstallationSeries(data: Option<InstallationDoc>) returns (series: Option<(seq<string>, seq<real>)>)
    ensures series == None <==> data == None || IsEmptyDoc(data.value)
    ensures series != None ==>
      && |series.value.0| == |series.value.1| == |Timings(data.value)|
      && NonDecreasing(series.value.1)
      && multiset(Zip(series.value.0, series.value.1)) == multiset(Timings(data.value))
  {
    if data == None || IsEmptyDoc(data.value) {
      return None;
    }
    var entries := data.value.results.GetOr([]);
    var tools: seq<string> := [];
    var times: seq<real> := [];
    for i := 0 to |entries|
      invariant |tools| == i && |times| == i
      invariant forall k :: 0 <= k < i ==> tools[k] == entries[k].0 && times[k] == TimeOf(entries[k].1)
    {
      tools := tools + [entries[i].0];
      times := times + [TimeOf(entries[i].1)];
    }
    assert Zip(tools, times) == Timings(data.value);
    var sorted := SortByTime(Zip(tools, times));
    var sortedTools := seq(|sorted|, i requires 0 <= i < |sorted| => sorted[i].0);
    var sortedTimes := seq(|sorted|, i requires 0 <= i < |sorted| => sorted[i].1);
    assert Zip(sortedTools, sortedTimes) == sorted;
    series := Some((sortedTools, sortedTimes));
  }

  // ---------------------------------------------------------------------------------------
  // Reproducibility
  // ---------------------------------------------------------------------------------------

  /** One tool's entry in the reproducibility document. */
  datatype ReproEntry = ReproEntry(reproducible: Option<bool>)

  /** The data of `generate_reproducibility_chart`: nothing for an absent or empty document;
      otherwise every tool in document order with flag 1 when its "reproducible" is true and
      0 otherwise, a missing key included. */
  method ReproducibilitySeries(data: Option<seq<(string, ReproEntry)>>) returns (series: Option<(seq<string>, seq<int>)>)
    ensures series == None <==> data == None || data.value == []
    ensures series != None ==>
      && |series.value.0| == |series.value.1| == |data.value|
      && forall i :: 0 <= i < |data.value| ==>
        && series.value.0[i] == data.value[i].0
        && (series.value.1[i] == 0 || series.value.1[i] == 1)
        && (series.value.1[i] == 1 <==> data.value[i].1.reproducible == Some(true))
  {
    if data == None || data.value == [] {
      return None;
    }
    var entries := data.value;
    var tools: seq<string> := [];
    var reproducible: seq<int> := [];
    for i := 0 to |entries|
      invariant |tools| == i && |reproducible| == i
      invariant forall k :: 0 <= k < i ==>
        tools[k] == entries[k].0 &&
        reproducible[k] == (if entries[k].1.reproducible == Some(true) then 1 else 0)
    {
      tools := tools + [entries[i].0];
      reproducible := reproducible + [if entries[i].1.reproducible.GetOr(false) then 1 else 0];
    }
    series := Some((tools, reproducible));
  }

  // ---------------------------------------------------------------------------------------
  // Developer experience
  // ---------------------------------------------------------------------------------------

  /** One scenario record as read back from the DX document. */
  datatype ScenarioEntry = ScenarioEntry(name: Option<string>, description: Option<string>, success: Option<bool>)

  /** One tool's entry in the DX document. */
  datatype DxEntry = DxEntry(scenarios: Option<seq<ScenarioEntry>>)

  /** The tool's scenario list; a missing key reads as empty. */
  function ScenariosOf(e: DxEntry): seq<ScenarioEntry> {
    e.scenarios.GetOr([])
  }

  /** A scenario counts as a success only when its "success" is true. */
  predicate Succeeded(s: ScenarioEntry) {
    s.success == Some(true)
  }

  /** How many scenarios succeeded. */
  function SuccessCount(s: seq<ScenarioEntry>): (c: nat)
    ensures c <= |s|
    ensures c == |s| <==> forall i :: 0 <= i < |s| ==> Succeeded(s[i])
    ensures c == 0 <==> forall i :: 0 <= i < |s| ==> !Succeeded(s[i])
  {
    if s == [] then 0
    else
      var rest := SuccessCount(s[1..]);
      assert forall i :: 1 <= i < |s| ==> s[i] == s[1..][i - 1];
      (if Succeeded(s[0]) then 1 else 0) + rest
  }

  /** The success rate of a non-empty scenario list, as a percentage: between 0 and 100, 100
      exactly when every scenario succeeded and 0 exactly when none did. */
  function SuccessRate(s: seq<ScenarioEntry>): (r: real)
    requires s != []
    ensures 0.0 <= r <= 100.0
    ensures r == 100.0 <==> forall i :: 0 <= i < |s| ==> Succeeded(s[i])
    ensures r == 0.0 <==> forall i :: 0 <= i < |s| ==> !Succeeded(s[i])
  {
    var c := SuccessCount(s) as real;
    var n := |s| as real;
    FractionBounds(c, n);
    c / n * 100.0
  }

  /** A share `c` of a positive whole `n` with `0 <= c <= n` is a fraction between 0 and 1,
      equal to 1 exactly when `c == n` and to 0 exactly when `c == 0`. */
  lemma FractionBounds(c: real, n: real)
    requires 0.0 <= c <= n && n > 0.0
    ensures 0.0 <= c / n <= 1.0
    ensures c / n == 1.0 <==> c == n
    ensures c / n == 0.0 <==> c == 0.0
  {
    assert c / n * n == c;
  }

  /** The tools and rates charted after the first `n` entries of the DX document: a tool with
      no scenarios is skipped. */
  function DxRates(data: seq<(string, DxEntry)>, n: nat): (series: (seq<string>, seq<real>))
    requires n <= |data|
    ensures |series.0| == |series.1|
  {
    if n == 0 then ([], [])
    else
      var (tools, rates) := DxRates(data, n - 1);
      var scenarios := ScenariosOf(data[n - 1].1);
      if scenarios == [] then (tools, rates)
      else (tools + [data[n - 1].0], rates + [SuccessRate(scenarios)])
  }

  /** The data of `generate_dx_chart`: nothing for an absent or empty document; otherwise the
      tools that have scenarios, in document order, with their success rates. */
  method DxSeries(data: Option<seq<(string, DxEntry)>>) returns (series: Option<(seq<string>, seq<real>)>)
    ensures series == None <==> data == None || data.value == []
    ensures series != None ==> series.value == DxRates(data.value, |data.value|)
  {
    if data == None || data.value == [] {
      return None;
    }
    var entries := data.value;
    var tools: seq<string> := [];
    var successRates: seq<real> := [];
    for i := 0 to |entries|
      invariant (tools, successRates) == DxRates(entries, i)
    {
      var scenarios := ScenariosOf(entries[i].1);
      if scenarios == [] {
        continue;
      }
      tools := tools + [entries[i].0];
      var successCount := SuccessCount(scenarios);
      var successRate := (successCount as real) / (|scenarios| as real) * 100.0;
      successRates := successRates + [successRate];
    }
    series := Some((tools, successRates));
  }

  /** The positions, among the first `n` entries, of the tools that have scenarios. */
  function WithScenarios(data: seq<(string, DxEntry)>, n: nat): seq<nat>
    requires n <= |data|
  {
    if n == 0 then []
    else WithScenarios(data, n - 1) + if ScenariosOf(data[n - 1].1) == [] then [] else [n - 1]
  }

  /** The positions of the tools with a non-empty scenario list, below `n`: each lies below
      `n`, they strictly increase, and a position is missing only when that tool has no
      scenarios. */
  lemma {:induction false} WithScenariosFacts(data: seq<(string, DxEntry)>, n: nat)
    requires n <= |data|
    ensures |WithScenarios(data, n)| <= n
    ensures forall m :: 0 <= m < |WithScenarios(data, n)| ==> WithScenarios(data, n)[m] < n
    ensures forall m, m' :: 0 <= m < m' < |WithScenarios(data, n)| ==>
      WithScenarios(data, n)[m] < WithScenarios(data, n)[m']
    ensures forall k: nat :: k < n ==> (k in WithScenarios(data, n) <==> ScenariosOf(data[k].1) != [])
  {
    if n > 0 {
      WithScenariosFacts(data, n - 1);
      var ws := WithScenarios(data, n - 1);
      if ScenariosOf(data[n - 1].1) == [] {
        assert WithScenarios(data, n) == ws;
      } else {
        assert WithScenarios(data, n) == ws + [n - 1];
      }
    }
  }

  /** The DX series lists, in document order, the tools at the positions that have
      scenarios, each with the success rate of its own scenarios. */
  lemma {:induction false} DxRatesInOrder(data: seq<(string, DxEntry)>, n: nat)
    requires n <= |data|
    ensures |DxRates(data, n).0| == |WithScenarios(data, n)|
    ensures forall m :: 0 <= m < |WithScenarios(data, n)| ==>
      var j := WithScenarios(data, n)[m];
      && j < |data|
      && ScenariosOf(data[j].1) != []
      && DxRates(data, n).0[m] == data[j].0
      && DxRates(data, n).1[m] == SuccessRate(ScenariosOf(data[j].1))
  {
    if n > 0 {
      DxRatesInOrder(data, n - 1);
      var prev, cur := DxRates(data, n - 1), DxRates(data, n);
      var ws, wsn := WithScenarios(data, n - 1), WithScenarios(data, n);
      var scenarios := ScenariosOf(data[n - 1].1);
      if scenarios == [] {
        assert cur == prev && wsn == ws;
      } else {
        assert cur.0 == prev.0 + [data[n - 1].0];
        assert cur.1 == prev.1 + [SuccessRate(scenarios)];
        assert wsn == ws + [n - 1];
        forall m | 0 <= m < |wsn|
          ensures var j := wsn[m];
            && j < |data|
            && ScenariosOf(data[j].1) != []
            && cur.0[m] == data[j].0
            && cur.1[m] == SuccessRate(ScenariosOf(data[j].1))
        {
          if m < |ws| {
            assert wsn[m] == ws[m] && cur.0[m] == prev.0[m] && cur.1[m] == prev.1[m];
          }
        }
      }
    }
  }
}
