/**
 * The data-driven parts of the Markdown report: the fastest/slowest and best/worst callouts,
 * the split into reproducible and non-reproducible tools, and the per-tool speed and DX ranks
 * of the conclusion section. The static prose and number formatting are not modelled.
 */
module ReportSummary {
  import opened Wrappers
  import opened ReportSeries

  /** A tool named in the report together with the figure shown beside it. */
  datatype Callout = Callout(tool: string, value: real)

  // ---------------------------------------------------------------------------------------
  // Sequence helpers with Python's meaning
  // ---------------------------------------------------------------------------------------

  /** `s.index(x)`: the position of the first occurrence of `x`. */
  function IndexOf<T(==)>(s: seq<T>, x: T): (k: nat)
    requires x in s
    ensures k < |s| && s[k] == x
    ensures forall j :: 0 <= j < k ==> s[j] != x
  {
    if s[0] == x then 0 else 1 + IndexOf(s[1..], x)
  }

  /** `np.argmax(s)`: the first position holding the largest value. */
  function ArgMax(s: seq<real>): (k: nat)
    requires s != []
    ensures k < |s|
    ensures forall j :: 0 <= j < |s| ==> s[j] <= s[k]
    ensures forall j :: 0 <= j < k ==> s[j] < s[k]
  {
    if |s| == 1 then 0
    else
      var k := ArgMax(s[..|s| - 1]);
      if s[|s| - 1] > s[k] then |s| - 1 else k
  }

  /** `np.argmin(s)`: the first position holding the smallest value. */
  function ArgMin(s: seq<real>): (k: nat)
    requires s != []
    ensures k < |s|
    ensures forall j :: 0 <= j < |s| ==> s[k] <= s[j]
    ensures forall j :: 0 <= j < k ==> s[k] < s[j]
  {
    if |s| == 1 then 0
    else
      var k := ArgMin(s[..|s| - 1]);
      if s[|s| - 1] < s[k] then |s| - 1 else k
  }

  // ---------------------------------------------------------------------------------------
  // Installation speed callouts
  // ---------------------------------------------------------------------------------------

  /** The fastest and slowest tools: the first and last entries of the ascending series. When
      the series is sorted, as the installation series is, they have the least and the
      greatest time. */
  function SpeedCallouts(tools: seq<string>, times: seq<real>): (r: (Callout, Callout))
    requires |tools| == |times| > 0
    ensures r.0 == Callout(tools[0], times[0])
    ensures r.1 == Callout(tools[|tools| - 1], times[|times| - 1])
    ensures NonDecreasing(times) ==> forall i :: 0 <= i < |times| ==> r.0.value <= times[i] <= r.1.value
  {
    (Callout(tools[0], times[0]), Callout(tools[|tools| - 1], times[|times| - 1]))
  }

  // ---------------------------------------------------------------------------------------
  // Reproducible / non-reproducible split
  // ---------------------------------------------------------------------------------------

  /** The tools whose flag equals `flag`, in series order (the comprehensions of the report). */
  function Select(tools: seq<string>, flags: seq<int>, flag: int): (r: seq<string>)
    requires |tools| == |flags|
    ensures |r| <= |tools|
    ensures forall t :: t in r <==> exists i :: 0 <= i < |tools| && tools[i] == t && flags[i] == flag
  {
    if tools == [] then []
    else
      var n := |tools| - 1;
      Select(tools[..n], flags[..n], flag) + if flags[n] == flag then [tools[n]] else []
  }

  function ReproducibleTools(tools: seq<string>, flags: seq<int>): (r: seq<string>)
    requires |tools| == |flags|
    ensures forall t :: t in r <==> exists i :: 0 <= i < |tools| && tools[i] == t && flags[i] == 1
  {
    Select(tools, flags, 1)
  }

  function NonReproducibleTools(tools: seq<string>, flags: seq<int>): (r: seq<string>)
    requires |tools| == |flags|
    ensures forall t :: t in r <==> exists i :: 0 <= i < |tools| && tools[i] == t && flags[i] == 0
  {
    Select(tools, flags, 0)
  }

  /** The positions whose flag equals `flag`, in increasing order. */
  function Picked(flags: seq<int>, flag: int): seq<nat> {
    if flags == [] then []
    else
      var n := |flags| - 1;
      Picked(flags[..n], flag) + if flags[n] == flag then [n] else []
  }

  /** The picked positions lie in range, carry the flag, strictly increase, and include every
      position carrying the flag. */
  lemma {:induction false} PickedPositions(flags: seq<int>, flag: int)
    ensures forall m :: 0 <= m < |Picked(flags, flag)| ==>
      Picked(flags, flag)[m] < |flags| && flags[Picked(flags, flag)[m]] == flag
    ensures forall m, m' :: 0 <= m < m' < |Picked(flags, flag)| ==> Picked(flags, flag)[m] < Picked(flags, flag)[m']
    ensures forall i: nat :: i < |flags| ==> (i in Picked(flags, flag) <==> flags[i] == flag)
  {
    if flags != [] {
      var n := |flags| - 1;
      var fs := flags[..n];
      PickedPositions(fs, flag);
      var p := Picked(fs, flag);
      forall m | 0 <= m < |p| ensures flags[p[m]] == flag {
        assert fs[p[m]] == flags[p[m]];
      }
      forall i: nat | i < n ensures (i in p <==> flags[i] == flag) {
        assert fs[i] == flags[i];
      }
      if flags[n] == flag {
        assert Picked(flags, flag) == p + [n];
      } else {
        assert Picked(flags, flag) == p;
      }
    }
  }

  /** Picking from a longer flag list adds its last position exactly when its flag matches. */
  lemma PickedStep(flags: seq<int>, flag: int)
    requires flags != []
    ensures var n := |flags| - 1;
      Picked(flags, flag) == Picked(flags[..n], flag) + (if flags[n] == flag then [n] else [])
  {
  }

  /** The selection keeps series order: its m-th tool is the tool at the m-th picked position. */
  lemma {:induction false} SelectInOrder(tools: seq<string>, flags: seq<int>, flag: int)
    requires |tools| == |flags|
    ensures |Select(tools, flags, flag)| == |Picked(flags, flag)|
    ensures forall m :: 0 <= m < |Picked(flags, flag)| ==>
      Picked(flags, flag)[m] < |tools| && Select(tools, flags, flag)[m] == tools[Picked(flags, flag)[m]]
  {
    if tools != [] {
      var n := |tools| - 1;
      var ts, fs := tools[..n], flags[..n];
      SelectInOrder(ts, fs, flag);
      SelectStep(tools, flags, flag);
      PickedStep(flags, flag);
      var s, p := Select(ts, fs, flag), Picked(fs, flag);
      forall m | 0 <= m < |p| ensures s[m] == tools[p[m]] {
        assert ts[p[m]] == tools[p[m]];
      }
    }
  }

  /** Selecting from a longer series adds the last tool exactly when its flag matches. */
  lemma SelectStep(tools: seq<string>, flags: seq<int>, flag: int)
    requires |tools| == |flags| > 0
    ensures var n := |tools| - 1;
      && Select(tools, flags, flag) == Select(tools[..n], flags[..n], flag) + (if flags[n] == flag then [tools[n]] else [])
      && |Select(tools, flags, flag)| == |Select(tools[..n], flags[..n], flag)| + (if flags[n] == flag then 1 else 0)
      && multiset(Select(tools, flags, flag)) ==
        multiset(Select(tools[..n], flags[..n], flag)) + (if flags[n] == flag then multiset{tools[n]} else multiset{})
  {
    var n := |tools| - 1;
    var s := Select(tools[..n], flags[..n], flag);
    if flags[n] == flag {
      assert Select(tools, flags, flag) == s + [tools[n]];
    } else {
      assert Select(tools, flags, flag) == s;
    }
  }

  /** A non-empty sequence holds its prefix's elements and its last one. */
  lemma MultisetOfSnoc<T>(s: seq<T>)
    requires s != []
    ensures multiset(s) == multiset(s[..|s| - 1]) + multiset{s[|s| - 1]}
  {
    assert s == s[..|s| - 1] + [s[|s| - 1]];
  }

  /** With 0/1 flags the two lists split the series: together they hold every tool exactly as
      often as the series does. */
  lemma {:induction false} PartitionOfTools(tools: seq<string>, flags: seq<int>)
    requires |tools| == |flags|
    requires forall i :: 0 <= i < |flags| ==> flags[i] == 0 || flags[i] == 1
    ensures multiset(ReproducibleTools(tools, flags)) + multiset(NonReproducibleTools(tools, flags)) == multiset(tools)
    ensures |ReproducibleTools(tools, flags)| + |NonReproducibleTools(tools, flags)| == |tools|
  {
    if tools != [] {
      var n := |tools| - 1;
      var ts, fs := tools[..n], flags[..n];
      PartitionOfTools(ts, fs);
      SelectStep(tools, flags, 1);
      SelectStep(tools, flags, 0);
      MultisetOfSnoc(tools);
    }
  }

  // ---------------------------------------------------------------------------------------
  // Best / worst DX callouts, and the finding about their guard
  // ---------------------------------------------------------------------------------------

  /** The best and worst DX tools as the report computes them, for a non-empty series. */
  function BestWorst(tools: seq<string>, rates: seq<real>): (r: (Callout, Callout))
    requires |tools| == |rates| > 0
    ensures forall i :: 0 <= i < |rates| ==> r.1.value <= rates[i] <= r.0.value
    ensures exists i :: 0 <= i < |rates| && r.0 == Callout(tools[i], rates[i])
    ensures exists i :: 0 <= i < |rates| && r.1 == Callout(tools[i], rates[i])
  {
    var best, worst := ArgMax(rates), ArgMin(rates);
    (Callout(tools[best], rates[best]), Callout(tools[worst], rates[worst]))
  }

  /** The DX callouts as written: the report's guard `if dx_data:` tests the returned pair of
      lists, which is truthy even when both lists are empty, and `np.argmax` of an empty list
      raises (`Failure`). */
  function DxCalloutsAsWritten(dxData: Option<(seq<string>, seq<real>)>): (r: Result<Option<(Callout, Callout)>, string>)
    requires dxData != None ==> |dxData.value.0| == |dxData.value.1|
    ensures r.Failure? <==> dxData != None && dxData.value.1 == []
  {
    if dxData == None then Success(None)
    else if dxData.value.1 == [] then Failure("attempt to get argmax of an empty sequence")
    else Success(Some(BestWorst(dxData.value.0, dxData.value.1)))
  }

  /** The DX callouts as intended: omitted when no tool has scenarios, otherwise the tools with
      the highest and lowest rates. Never fails. */
  function DxCallouts(dxData: Option<(seq<string>, seq<real>)>): (r: Option<(Callout, Callout)>)
    requires dxData != None ==> |dxData.value.0| == |dxData.value.1|
    ensures r == None <==> dxData == None || dxData.value.0 == []
    ensures r != None ==> forall i :: 0 <= i < |dxData.value.1| ==>
      r.value.1.value <= dxData.value.1[i] <= r.value.0.value
  {
    if dxData == None || dxData.value.0 == [] then None
    else Some(BestWorst(dxData.value.0, dxData.value.1))
  }

  /** When every tool in the DX document has an empty scenario list (as happens when every
      tool's setup failed), the DX series is a pair of empty lists: the report as written
      raises, while the intended callouts are simply omitted. */
  lemma {:induction false} EmptyScenariosBreakDxCallouts(data: seq<(string, DxEntry)>)
    requires data != []
    requires forall i :: 0 <= i < |data| ==> ScenariosOf(data[i].1) == []
    ensures DxRates(data, |data|) == ([], [])
    ensures DxCalloutsAsWritten(Some(DxRates(data, |data|))).Failure?
    ensures DxCallouts(Some(DxRates(data, |data|))) == None
  {
    NoRates(data, |data|);
  }

  lemma {:induction false} NoRates(data: seq<(string, DxEntry)>, n: nat)
    requires n <= |data|
    requires forall i :: 0 <= i < |data| ==> ScenariosOf(data[i].1) == []
    ensures DxRates(data, n) == ([], [])
  {
    if n > 0 {
      NoRates(data, n - 1);
    }
  }

  // ---------------------------------------------------------------------------------------
  // Ranks of the conclusion section
  // ---------------------------------------------------------------------------------------

  /** The speed rank: 1 + the tool's position in the ascending installation series. */
  function SpeedRank(toolsSpeed: seq<string>, tool: string): (rank: nat)
    requires tool in toolsSpeed
    ensures 1 <= rank <= |toolsSpeed|
    ensures toolsSpeed[rank - 1] == tool
    ensures forall j :: 0 <= j < rank - 1 ==> toolsSpeed[j] != tool
  {
    IndexOf(toolsSpeed, tool) + 1
  }

  /** The speed rank lies in 1..n, names the tool, and no tool ranked ahead of it is slower. */
  lemma SpeedRankFacts(toolsSpeed: seq<string>, times: seq<real>, tool: string)
    requires |toolsSpeed| == |times|
    requires tool in toolsSpeed
    requires NonDecreasing(times)
    ensures 1 <= SpeedRank(toolsSpeed, tool) <= |toolsSpeed|
    ensures toolsSpeed[SpeedRank(toolsSpeed, tool) - 1] == tool
    ensures forall j :: 0 <= j < SpeedRank(toolsSpeed, tool) - 1 ==> times[j] <= times[SpeedRank(toolsSpeed, tool) - 1]
    ensures toolsSpeed[0] == tool <==> SpeedRank(toolsSpeed, tool) == 1
  {
  }

  /** Stable descending order of rates: `idx` goes after every position whose rate is at least
      its own. */
  function InsertDesc(idx: nat, order: seq<nat>, rates: seq<real>): (r: seq<nat>)
    requires idx < |rates|
    requires forall k :: 0 <= k < |order| ==> order[k] < |rates|
    ensures |r| == |order| + 1
    ensures forall k :: 0 <= k < |r| ==> r[k] < |rates|
  {
    if order == [] then [idx]
    else if rates[order[0]] >= rates[idx] then [order[0]] + InsertDesc(idx, order[1..], rates)
    else [idx] + order
  }

  /** Inserting adds the one position and keeps every other. */
  lemma {:induction false} InsertDescPermutes(idx: nat, order: seq<nat>, rates: seq<real>)
    requires idx < |rates|
    requires forall k :: 0 <= k < |order| ==> order[k] < |rates|
    ensures multiset(InsertDesc(idx, order, rates)) == multiset(order) + multiset{idx}
  {
    if order != [] && rates[order[0]] >= rates[idx] {
      InsertDescPermutes(idx, order[1..], rates);
      assert order == [order[0]] + order[1..];
    }
  }

  /** `sorted(range(n), key=lambda i: rates[i], reverse=True)`: Python's sort is stable also
      in reverse, so equal rates keep ascending position order. */
  function RankOrder(rates: seq<real>, n: nat): (r: seq<nat>)
    requires n <= |rates|
    ensures |r| == n
    ensures forall k :: 0 <= k < |r| ==> r[k] < |rates|
  {
    if n == 0 then [] else InsertDesc(n - 1, RankOrder(rates, n - 1), rates)
  }

  lemma RankOrderStep(rates: seq<real>, n: nat)
    requires 0 < n <= |rates|
    ensures RankOrder(rates, n) == InsertDesc(n - 1, RankOrder(rates, n - 1), rates)
  {
  }

  /** The rank order is a permutation of the positions 0..n-1. */
  lemma {:induction false} RankOrderPermutes(rates: seq<real>, n: nat)
    requires n <= |rates|
    ensures multiset(RankOrder(rates, n)) == multiset(Range(n))
  {
    if n > 0 {
      RankOrderPermutes(rates, n - 1);
      InsertDescPermutes(n - 1, RankOrder(rates, n - 1), rates);
      RankOrderStep(rates, n);
      RangeStep(n - 1);
    }
  }

  lemma RangeStep(m: nat)
    ensures multiset(Range(m + 1)) == multiset(Range(m)) + multiset{m}
  {
    assert Range(m + 1) == Range(m) + [m];
  }

  /** The positions 0..n-1. */
  function Range(n: nat): (r: seq<nat>)
    ensures |r| == n && forall i :: 0 <= i < n ==> r[i] == i
  {
    seq(n, i requires 0 <= i => i)
  }

  ghost predicate SortedDesc(order: seq<nat>, rates: seq<real>)
    requires forall k :: 0 <= k < |order| ==> order[k] < |rates|
  {
    forall a, b :: 0 <= a < b < |order| ==> rates[order[a]] >= rates[order[b]]
  }

  ghost predicate StableTies(order: seq<nat>, rates: seq<real>)
    requires forall k :: 0 <= k < |order| ==> order[k] < |rates|
  {
    forall a, b :: 0 <= a < b < |order| && rates[order[a]] == rates[order[b]] ==> order[a] < order[b]
  }

  /** Placing a position in front of a stably sorted order keeps it sorted and stable when
      its rate is at least every later one, and strictly larger or its position smaller on
      every tie. */
  lemma PrependKeepsOrder(x: nat, rest: seq<nat>, rates: seq<real>)
    requires x < |rates|
    requires forall k :: 0 <= k < |rest| ==> rest[k] < |rates|
    requires SortedDesc(rest, rates) && StableTies(rest, rates)
    requires forall j :: 0 <= j < |rest| ==> rates[x] >= rates[rest[j]]
    requires forall j :: 0 <= j < |rest| && rates[x] == rates[rest[j]] ==> x < rest[j]
    ensures SortedDesc([x] + rest, rates) && StableTies([x] + rest, rates)
  {
    var r := [x] + rest;
    forall a, b | 0 <= a < b < |r|
      ensures rates[r[a]] >= rates[r[b]]
      ensures rates[r[a]] == rates[r[b]] ==> r[a] < r[b]
    {
      assert r[b] == rest[b - 1];
      if a > 0 {
        assert r[a] == rest[a - 1];
      }
    }
  }

  /** Every entry of `order` is an entry of the stable insertion of `idx`, and conversely
      except for `idx` itself. */
  lemma InsertDescEntries(idx: nat, order: seq<nat>, rates: seq<real>, j: nat)
    requires idx < |rates|
    requires forall k :: 0 <= k < |order| ==> order[k] < |rates|
    requires j < |order| + 1
    ensures InsertDesc(idx, order, rates)[j] == idx || InsertDesc(idx, order, rates)[j] in order
  {
    var r := InsertDesc(idx, order, rates);
    InsertDescPermutes(idx, order, rates);
    assert r[j] in multiset(r);
  }

  /** Inserting a position larger than every present one into a stably sorted order keeps it
      sorted and stable. */
  lemma {:induction false} InsertDescKeepsOrder(idx: nat, order: seq<nat>, rates: seq<real>)
    requires idx < |rates|
    requires forall k :: 0 <= k < |order| ==> order[k] < idx
    requires SortedDesc(order, rates) && StableTies(order, rates)
    ensures SortedDesc(InsertDesc(idx, order, rates), rates)
    ensures StableTies(InsertDesc(idx, order, rates), rates)
  {
    if order == [] {
    } else if rates[order[0]] >= rates[idx] {
      var head, tail := order[0], order[1..];
      assert forall k :: 0 <= k < |tail| ==> tail[k] == order[k + 1];
      var rest := InsertDesc(idx, tail, rates);
      InsertDescKeepsOrder(idx, tail, rates);
      forall j | 0 <= j < |rest|
        ensures rates[head] >= rates[rest[j]]
        ensures rates[head] == rates[rest[j]] ==> head < rest[j]
      {
        InsertDescEntries(idx, tail, rates, j);
        if rest[j] != idx {
          var k :| 0 <= k < |tail| && tail[k] == rest[j];
          assert order[k + 1] == rest[j];
        }
      }
      PrependKeepsOrder(head, rest, rates);
    } else {
      forall j | 0 <= j < |order|
        ensures rates[idx] > rates[order[j]]
      {
        assert rates[order[0]] >= rates[order[j]];
      }
      PrependKeepsOrder(idx, order, rates);
    }
  }

  /** The rank order holds exactly the positions below n. */
  lemma RankOrderEntries(rates: seq<real>, n: nat)
    requires n <= |rates|
    ensures forall k :: 0 <= k < n ==> RankOrder(rates, n)[k] < n
    ensures forall i :: 0 <= i < n ==> i in RankOrder(rates, n)
  {
    var order := RankOrder(rates, n);
    RankOrderPermutes(rates, n);
    forall k | 0 <= k < n ensures order[k] < n {
      assert order[k] in multiset(Range(n));
    }
    forall i | 0 <= i < n ensures i in order {
      assert Range(n)[i] == i;
      assert i in multiset(Range(n));
    }
  }

  /** The rank order is sorted by descending rate, ties in ascending position order. */
  lemma {:induction false} RankOrderSorted(rates: seq<real>, n: nat)
    requires n <= |rates|
    ensures SortedDesc(RankOrder(rates, n), rates)
    ensures StableTies(RankOrder(rates, n), rates)
  {
    if n > 0 {
      var prev := RankOrder(rates, n - 1);
      RankOrderSorted(rates, n - 1);
      RankOrderEntries(rates, n - 1);
      InsertDescKeepsOrder(n - 1, prev, rates);
      RankOrderStep(rates, n);
    }
  }

  /** The DX rank: 1 + where the tool's position falls in the rank order. */
  function DxRank(toolsDx: seq<string>, rates: seq<real>, tool: string): (rank: nat)
    requires |toolsDx| == |rates|
    requires tool in toolsDx
    ensures 1 <= rank <= |toolsDx|
  {
    RankOrderEntries(rates, |rates|);
    IndexOf(RankOrder(rates, |rates|), IndexOf(toolsDx, tool)) + 1
  }

  /** For distinct tool names a strictly higher rate gives a strictly smaller DX rank, and
      equal rates rank in series order. */
  lemma DxRankFacts(toolsDx: seq<string>, rates: seq<real>, i: nat, j: nat)
    requires |toolsDx| == |rates|
    requires forall a, b :: 0 <= a < b < |toolsDx| ==> toolsDx[a] != toolsDx[b]
    requires i < |toolsDx| && j < |toolsDx|
    ensures rates[i] > rates[j] ==> DxRank(toolsDx, rates, toolsDx[i]) < DxRank(toolsDx, rates, toolsDx[j])
    ensures rates[i] == rates[j] && i < j ==> DxRank(toolsDx, rates, toolsDx[i]) < DxRank(toolsDx, rates, toolsDx[j])
  {
    var order := RankOrder(rates, |rates|);
    RankOrderEntries(rates, |rates|);
    RankOrderSorted(rates, |rates|);
    assert IndexOf(toolsDx, toolsDx[i]) == i;
    assert IndexOf(toolsDx, toolsDx[j]) == j;
    var pi, pj := IndexOf(order, i), IndexOf(order, j);
    assert order[pi] == i && order[pj] == j;
    RankPositions(order, rates, pi, pj);
  }

  /** In a descending, tie-stable order, a higher rate sits earlier, and so does the earlier of
      two tools with equal rates. */
  lemma RankPositions(order: seq<nat>, rates: seq<real>, pi: nat, pj: nat)
    requires forall k :: 0 <= k < |order| ==> order[k] < |rates|
    requires SortedDesc(order, rates) && StableTies(order, rates)
    requires pi < |order| && pj < |order|
    ensures rates[order[pi]] > rates[order[pj]] ==> pi < pj
    ensures rates[order[pi]] == rates[order[pj]] && order[pi] < order[pj] ==> pi < pj
  {
  }

  /** The tool named Best DX Tool holds DX rank 1. */
  lemma BestDxToolRanksFirst(toolsDx: seq<string>, rates: seq<real>)
    requires |toolsDx| == |rates| > 0
    requires forall a, b :: 0 <= a < b < |toolsDx| ==> toolsDx[a] != toolsDx[b]
    ensures DxRank(toolsDx, rates, BestWorst(toolsDx, rates).0.tool) == 1
  {
    var order := RankOrder(rates, |rates|);
    RankOrderEntries(rates, |rates|);
    RankOrderSorted(rates, |rates|);
    var best := ArgMax(rates);
    assert IndexOf(toolsDx, toolsDx[best]) == best;
    var p := IndexOf(order, best);
    assert order[p] == best;
    assert rates[order[0]] >= rates[best];
    assert order[0] <= best;
  }

  // ---------------------------------------------------------------------------------------
  // The per-tool conclusion entry
  // ---------------------------------------------------------------------------------------

  /** What the conclusion section shows for one tool: its speed rank, the number of timed
      tools and its time; whether it is reproducible; its DX rank, the number of DX tools and
      its rate. A part is absent when the tool is missing from that series. */
  datatype ToolConclusion = ToolConclusion(
    tool: string,
    speed: Option<(nat, nat, real)>,
    reproducible: Option<bool>,
    dx: Option<(nat, nat, real)>)

  function Conclusion(
    tool: string,
    toolsSpeed: seq<string>, times: seq<real>,
    toolsRepro: seq<string>, flags: seq<int>,
    toolsDx: seq<string>, rates: seq<real>): (c: ToolConclusion)
    requires |toolsSpeed| == |times| && |toolsRepro| == |flags| && |toolsDx| == |rates|
    ensures c.tool == tool
    ensures c.speed != None <==> tool in toolsSpeed
    ensures c.speed != None ==> 1 <= c.speed.value.0 <= c.speed.value.1 == |toolsSpeed|
    ensures c.speed != None ==> toolsSpeed[c.speed.value.0 - 1] == tool && c.speed.value.2 == times[c.speed.value.0 - 1]
    ensures c.reproducible != None <==> tool in toolsRepro
    ensures c.reproducible != None ==> (c.reproducible.value <==> exists i :: 0 <= i < |toolsRepro| && toolsRepro[i] == tool && flags[i] == 1 && forall j :: 0 <= j < i ==> toolsRepro[j] != tool)
    ensures c.dx != None <==> tool in toolsDx
    ensures c.dx != None ==> 1 <= c.dx.value.0 <= c.dx.value.1 == |toolsDx|
    ensures c.speed != None ==> c.speed.value.0 == SpeedRank(toolsSpeed, tool)
    ensures c.dx != None ==>
      && c.dx.value.0 == DxRank(toolsDx, rates, tool)
      && toolsDx[IndexOf(toolsDx, tool)] == tool
      && c.dx.value.2 == rates[IndexOf(toolsDx, tool)]
  {
    var speed :=
      if tool in toolsSpeed then
        var k := IndexOf(toolsSpeed, tool);
        Some((SpeedRank(toolsSpeed, tool), |toolsSpeed|, times[k]))
      else None;
    var repro :=
      if tool in toolsRepro then Some(flags[IndexOf(toolsRepro, tool)] == 1) else None;
    var dx :=
      if tool in toolsDx then
        var k := IndexOf(toolsDx, tool);
        Some((DxRank(toolsDx, rates, tool), |toolsDx|, rates[k]))
      else None;
    ToolConclusion(tool, speed, repro, dx)
  }

  /** The DX parts of two tools' conclusion entries, for a series without repeated names: each
      shows its own tool's rate, a strictly higher rate shows a strictly smaller rank, equal
      rates rank in series order, and the best DX tool's entry shows rank 1. */
  lemma ConclusionDxOrder(
    toolsSpeed: seq<string>, times: seq<real>,
    toolsRepro: seq<string>, flags: seq<int>,
    toolsDx: seq<string>, rates: seq<real>, i: nat, j: nat)
    requires |toolsSpeed| == |times| && |toolsRepro| == |flags| && |toolsDx| == |rates|
    requires forall a, b :: 0 <= a < b < |toolsDx| ==> toolsDx[a] != toolsDx[b]
    requires i < |toolsDx| && j < |toolsDx|
    ensures var ci := Conclusion(toolsDx[i], toolsSpeed, times, toolsRepro, flags, toolsDx, rates);
      var cj := Conclusion(toolsDx[j], toolsSpeed, times, toolsRepro, flags, toolsDx, rates);
      && ci.dx != None && cj.dx != None
      && ci.dx.value.2 == rates[i]
      && (rates[i] > rates[j] ==> ci.dx.value.0 < cj.dx.value.0)
      && (rates[i] == rates[j] && i < j ==> ci.dx.value.0 < cj.dx.value.0)
    ensures var best := BestWorst(toolsDx, rates).0.tool;
      Conclusion(best, toolsSpeed, times, toolsRepro, flags, toolsDx, rates).dx.value.0 == 1
  {
    assert IndexOf(toolsDx, toolsDx[i]) == i;
    DxRankFacts(toolsDx, rates, i, j);
    BestDxToolRanksFirst(toolsDx, rates);
  }
}
