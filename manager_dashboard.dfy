/**
 * The manager dashboard: the per-rep performance ranking it computes from
 * the page of calls it has loaded, the parameters and outcome of its
 * requests, and the report it exports.
 *
 * The ranking is a function of the loaded page only; it is not a global
 * statistic over every stored call.
 */
module ManagerDashboard {
  import opened Records
  import opened Seqs
  import opened Scoring
  import opened Ranking

  /** The counters `getRepPerformance` keeps per rep name while it walks the calls. */
  datatype RepTotals = RepTotals(calls: nat, totalScore: int, objections: nat, signals: nat)

  /** One row of the ranking. */
  datatype RepPerformance = RepPerformance(name: string, avgScore: int, calls: nat, objections: nat, signals: nat)

  /** The `rep_name` of each call, in order. */
  function RepNames(calls: seq<Call>): seq<string>
  {
    if calls == [] then [] else RepNames(Init(calls)) + [Last(calls).repName]
  }

  /** The calls of the rep named `name`, in order. */
  function CallsOf(calls: seq<Call>, name: string): seq<Call>
  {
    if calls == [] then []
    else CallsOf(Init(calls), name) + (if Last(calls).repName == name then [Last(calls)] else [])
  }

  /** What the counters of `name` hold once every call has been visited: sums over that rep's calls. */
  function Tally(calls: seq<Call>, name: string): RepTotals
  {
    var mine := CallsOf(calls, name);
    RepTotals(|mine|, ScoreSum(mine), ObjectionSum(mine), SignalSum(mine))
  }

  /** Visiting one more call bumps the counters of its rep and of no other. */
  lemma TallyStep(calls: seq<Call>, call: Call, name: string)
    ensures Tally(calls + [call], name) == if name == call.repName then Bump(Tally(calls, name), call) else Tally(calls, name)
  {
    assert Init(calls + [call]) == calls;
    var mine := CallsOf(calls, name);
    if name == call.repName {
      assert Init(mine + [call]) == mine;
    } else {
      assert mine + [] == mine;
    }
  }

  lemma NamesStep(calls: seq<Call>, call: Call)
    ensures Distinct(RepNames(calls + [call])) ==
      var d := Distinct(RepNames(calls));
      if call.repName in d then d else d + [call.repName]
  {
    assert Init(calls + [call]) == calls;
    assert Init(RepNames(calls + [call])) == RepNames(calls);
  }

  /** A rep has exactly as many calls as their name occurs among the calls. */
  lemma {:induction false} CallsOfCount(calls: seq<Call>, name: string)
    ensures |CallsOf(calls, name)| == Count(RepNames(calls), name)
  {
    if calls != [] {
      CallsOfCount(Init(calls), name);
    }
  }

  /** Every rep that appears among the calls has at least one call. */
  lemma RepHasCalls(calls: seq<Call>, name: string)
    requires name in RepNames(calls)
    ensures |CallsOf(calls, name)| >= 1
  {
    CallsOfCount(calls, name);
    CountPositive(RepNames(calls), name);
  }

  /** The ranking row of a rep that appears among the calls. */
  function Performance(calls: seq<Call>, name: string): (p: RepPerformance)
    requires name in RepNames(calls)
    ensures p.name == name && p.calls >= 1
    ensures 10 <= p.avgScore <= 100
  {
    RepHasCalls(calls, name);
    MeanScoreBounds(CallsOf(calls, name));
    var t := Tally(calls, name);
    RepPerformance(name, RoundedMean(t.totalScore, t.calls), t.calls, t.objections, t.signals)
  }

  function AvgScore(p: RepPerformance): int { p.avgScore }

  function CallCount(p: RepPerformance): int { p.calls }

  function Name(p: RepPerformance): string { p.name }

  /** One row per name of `names`, in the order of `names`. */
  function PerformancesOf(calls: seq<Call>, names: seq<string>): seq<RepPerformance>
    requires forall n :: n in names ==> n in RepNames(calls)
  {
    if names == [] then []
    else PerformancesOf(calls, Init(names)) + [Performance(calls, Last(names))]
  }

  /** The rows before sorting: one per distinct rep name, in first-seen order. */
  function Performances(calls: seq<Call>): seq<RepPerformance>
  {
    DistinctContents(RepNames(calls));
    PerformancesOf(calls, Distinct(RepNames(calls)))
  }

  /** `getRepPerformance()`: the rows sorted by non-increasing average score, ties in first-seen order. */
  function RankingOf(calls: seq<Call>): seq<RepPerformance>
  {
    SortDesc(Performances(calls), AvgScore)
  }

  lemma {:induction false} PerformancesOfIndex(calls: seq<Call>, names: seq<string>)
    requires forall n :: n in names ==> n in RepNames(calls)
    ensures |PerformancesOf(calls, names)| == |names|
    ensures forall j :: 0 <= j < |names| ==> PerformancesOf(calls, names)[j] == Performance(calls, names[j])
  {
    if names != [] {
      PerformancesOfIndex(calls, Init(names));
    }
  }

  /**
   * `getRepPerformance` walks the calls once, creating a zeroed counter
   * record the first time a rep name is seen and bumping that rep's
   * counters for every call, then turns each record into a row and sorts.
   */
  method GetRepPerformance(calls: seq<Call>) returns (ranking: seq<RepPerformance>)
    ensures ranking == RankingOf(calls)
  {
    var names, totals := TallyByRep(calls);
    DistinctContents(RepNames(calls));
    forall n | n in names ensures n in RepNames(calls) && totals[n].calls > 0 {
      RepHasCalls(calls, n);
    }
    var rows := seq(|names|, j requires 0 <= j < |names| =>
      var t := totals[names[j]];
      RepPerformance(names[j], RoundedMean(t.totalScore, t.calls), t.calls, t.objections, t.signals));
    PerformancesOfIndex(calls, names);
    assert rows == Performances(calls);
    ranking := SortDesc(rows, AvgScore);
  }

  /** The counters of a rep after one more of their calls. */
  function Bump(t: RepTotals, call: Call): RepTotals
  {
    RepTotals(t.calls + 1, t.totalScore + CallScore(call.analysis),
              t.objections + Objections(call.analysis), t.signals + Signals(call.analysis))
  }

  const Zero := RepTotals(0, 0, 0, 0)

  /** `names` and `totals` are what the `forEach` pass holds after visiting `calls`. */
  ghost predicate Tallied(calls: seq<Call>, names: seq<string>, totals: map<string, RepTotals>)
  {
    && names == Distinct(RepNames(calls))
    && (forall n :: n in totals <==> n in names)
    && (forall n :: n in totals ==> totals[n] == Tally(calls, n))
  }

  /** A rep name not yet seen has zeroed counters. */
  lemma UnseenIsZero(calls: seq<Call>, name: string)
    requires name !in Distinct(RepNames(calls))
    ensures Tally(calls, name) == Zero
  {
    DistinctContents(RepNames(calls));
    CallsOfCount(calls, name);
    CountPositive(RepNames(calls), name);
  }

  lemma TalliedStep(calls: seq<Call>, call: Call, names: seq<string>, totals: map<string, RepTotals>)
    requires Tallied(calls, names, totals)
    ensures Tallied(calls + [call],
                    if call.repName in totals then names else names + [call.repName],
                    totals[call.repName := Bump(if call.repName in totals then totals[call.repName] else Zero, call)])
  {
    var x := call.repName;
    var names' := if x in totals then names else names + [x];
    var old' := if x in totals then totals[x] else Zero;
    var totals' := totals[x := Bump(old', call)];
    assert names' == Distinct(RepNames(calls + [call])) by {
      NamesStep(calls, call);
    }
    assert old' == Tally(calls, x) by {
      if x !in totals {
        UnseenIsZero(calls, x);
      }
    }
    forall n | n in totals' ensures totals'[n] == Tally(calls + [call], n) {
      TallyStep(calls, call, n);
    }
    assert forall n :: n in totals' <==> n in names';
  }

  /** The `forEach` pass of `getRepPerformance`: rep names in first-seen order and each rep's counters. */
  method TallyByRep(calls: seq<Call>) returns (names: seq<string>, totals: map<string, RepTotals>)
    ensures names == Distinct(RepNames(calls))
    ensures forall n :: n in totals <==> n in names
    ensures forall n :: n in totals ==> totals[n] == Tally(calls, n)
  {
    names, totals := [], map[];
    var i := 0;
    while i < |calls|
      invariant 0 <= i <= |calls|
      invariant Tallied(calls[..i], names, totals)
    {
      var call := calls[i];
      assert calls[..i + 1] == calls[..i] + [call];
      TalliedStep(calls[..i], call, names, totals);
      var current := Zero;
      if call.repName in totals {
        current := totals[call.repName];
      } else {
        names := names + [call.repName];
      }
      totals := totals[call.repName := Bump(current, call)];
      i := i + 1;
    }
    assert calls[..i] == calls;
  }

  /** Sum, over the names in `names`, of each rep's call count. */
  function CallCountSum(calls: seq<Call>, names: seq<string>): int
  {
    if names == [] then 0 else CallCountSum(calls, Init(names)) + |CallsOf(calls, Last(names))|
  }

  lemma {:induction false} CallCountSumStep(calls: seq<Call>, call: Call, names: seq<string>)
    ensures CallCountSum(calls + [call], names) == CallCountSum(calls, names) + Count(names, call.repName)
  {
    assert Init(calls + [call]) == calls;
    if names != [] {
      CallCountSumStep(calls, call, Init(names));
    }
  }

  /** Every call is counted for exactly one rep. */
  lemma {:induction false} CallCountSumTotal(calls: seq<Call>)
    ensures CallCountSum(calls, Distinct(RepNames(calls))) == |calls|
  {
    if calls != [] {
      var rest, call := Init(calls), Last(calls);
      assert calls == rest + [call];
      var d := Distinct(RepNames(rest));
      assert Init(RepNames(calls)) == RepNames(rest);
      CallCountSumTotal(rest);
      CallCountSumStep(rest, call, d);
      DistinctNoDup(RepNames(rest));
      DistinctContents(RepNames(rest));
      CountNoDup(d, call.repName);
      if call.repName !in d {
        CallsOfCount(rest, call.repName);
        CountPositive(RepNames(rest), call.repName);
        CallCountSumStep(rest, call, d + [call.repName]);
        assert Init(d + [call.repName]) == d;
      }
    }
  }

  lemma {:induction false} SumOfCallCounts(calls: seq<Call>, names: seq<string>)
    requires forall n :: n in names ==> n in RepNames(calls)
    ensures SumBy(PerformancesOf(calls, names), CallCount) == CallCountSum(calls, names)
  {
    if names != [] {
      SumOfCallCounts(calls, Init(names));
      SumByConcat(PerformancesOf(calls, Init(names)), [Performance(calls, Last(names))], CallCount);
    }
  }

  /** The unsorted rows: one per distinct rep name, each that rep's row. */
  lemma PerformancesFacts(calls: seq<Call>)
    ensures DistinctBy(Performances(calls), Name)
    ensures forall p :: p in Performances(calls) ==> p.name in RepNames(calls) && p == Performance(calls, p.name)
    ensures forall n :: n in RepNames(calls) ==> Performance(calls, n) in Performances(calls)
    ensures |Performances(calls)| == |set n | n in RepNames(calls)|
  {
    PerformancesDistinct(calls);
    PerformancesRows(calls);
    PerformancesCover(calls);
    assert |Performances(calls)| == |set n | n in RepNames(calls)| by {
      DistinctContents(RepNames(calls));
      PerformancesOfIndex(calls, Distinct(RepNames(calls)));
      DistinctCardinality(RepNames(calls));
    }
  }

  lemma PerformancesDistinct(calls: seq<Call>)
    ensures DistinctBy(Performances(calls), Name)
  {
    var names := Distinct(RepNames(calls));
    DistinctContents(RepNames(calls));
    DistinctNoDup(RepNames(calls));
    PerformancesOfIndex(calls, names);
    assert forall j :: 0 <= j < |Performances(calls)| ==> Performances(calls)[j].name == names[j];
  }

  lemma PerformancesRows(calls: seq<Call>)
    ensures forall p :: p in Performances(calls) ==> p.name in RepNames(calls) && p == Performance(calls, p.name)
  {
    var names := Distinct(RepNames(calls));
    DistinctContents(RepNames(calls));
    var rows := Performances(calls);
    PerformancesOfIndex(calls, names);
    forall p | p in rows ensures p.name in RepNames(calls) && p == Performance(calls, p.name) {
      var j :| 0 <= j < |rows| && rows[j] == p;
    }
  }

  lemma PerformancesCover(calls: seq<Call>)
    ensures forall n :: n in RepNames(calls) ==> Performance(calls, n) in Performances(calls)
  {
    var names := Distinct(RepNames(calls));
    DistinctContents(RepNames(calls));
    var rows := Performances(calls);
    PerformancesOfIndex(calls, names);
    forall n | n in RepNames(calls) ensures Performance(calls, n) in rows {
      var j :| 0 <= j < |names| && names[j] == n;
      assert rows[j] == Performance(calls, n);
    }
  }

  /**
   * The ranking holds exactly one row per distinct rep name of the loaded
   * calls, ordered by non-increasing average score; each row is that rep's
   * counts (at least one call) and an average in [10, 100].
   */
  lemma RankingCorrect(calls: seq<Call>)
    ensures NonIncreasing(RankingOf(calls), AvgScore)
    ensures DistinctBy(RankingOf(calls), Name)
    ensures forall p :: p in RankingOf(calls) ==> p.name in RepNames(calls) && p == Performance(calls, p.name)
    ensures forall n :: n in RepNames(calls) ==> Performance(calls, n) in RankingOf(calls)
    ensures |RankingOf(calls)| == |set n | n in RepNames(calls)|
  {
    var rows := Performances(calls);
    PerformancesFacts(calls);
    SortDescCorrect(rows, AvgScore);
    SortDescDistinct(rows, AvgScore, Name);
    forall p | p in RankingOf(calls) ensures p in rows {
      assert p in multiset(rows);
    }
    forall n | n in RepNames(calls) ensures Performance(calls, n) in RankingOf(calls) {
      assert Performance(calls, n) in multiset(RankingOf(calls));
    }
  }

  /** The rows' call counts add up to the number of loaded calls. */
  lemma RankingCountsAllCalls(calls: seq<Call>)
    ensures SumBy(RankingOf(calls), CallCount) == |calls|
  {
    DistinctContents(RepNames(calls));
    SortDescCorrect(Performances(calls), AvgScore);
    SumOfCallCounts(calls, Distinct(RepNames(calls)));
    CallCountSumTotal(calls);
  }

  /** Ties in average score are listed in the order their reps first appear among the calls. */
  lemma RankingTiesInFirstSeenOrder(calls: seq<Call>, score: int)
    ensures WithKey(RankingOf(calls), AvgScore, score) == WithKey(Performances(calls), AvgScore, score)
  {
    SortDescStable(Performances(calls), AvgScore, score);
  }

  /** The query parameters of `fetchCalls`. */
  datatype CallsParams = CallsParams(limit: nat, repId: Option<string>)

  /** `fetchCalls(repId)` always asks for 20 calls, and filters by rep only when one is selected. */
  function CallsQuery(repId: Option<string>): (p: CallsParams)
    ensures p.limit == 20
    ensures p.repId.Some? <==> Truthy(repId)
    ensures p.repId.Some? ==> p.repId == repId
  {
    CallsParams(20, if Truthy(repId) then repId else None)
  }

  /** The calls listed on the page and written to the export: at most the first ten loaded. */
  function FirstTen(calls: seq<Call>): (shown: seq<Call>)
    ensures shown <= calls
    ensures |shown| == Min(10, |calls|)
  {
    Take(calls, 10)
  }

  /** The exported snapshot. */
  datatype Report = Report(analytics: Option<Analytics>, calls: seq<Call>, generatedAt: string)

  /** The dashboard's component state. */
  class ManagerDashboardView {
    var analytics: Option<Analytics>
    var calls: seq<Call>
    var reps: seq<RepEntry>
    var selectedRep: string
    var loading: bool
    var error: string

    constructor ()
      ensures analytics == None && calls == [] && reps == [] && selectedRep == ""
      ensures loading && error == ""
    {
      analytics, calls, reps, selectedRep := None, [], [], "";
      loading, error := true, "";
    }

    /**
     * `fetchData`: analytics, reps and the first calls page are requested
     * together; the state takes all three only when all three succeed,
     * otherwise only the error message changes. Loading ends either way.
     */
    method FetchData(analyticsRes: Response<Analytics>, repsRes: Response<seq<RepEntry>>,
                     callsRes: Response<seq<Call>>)
      returns (params: CallsParams)
      modifies this
      ensures params == CallsQuery(None)
      ensures analyticsRes.Resolved? && repsRes.Resolved? && callsRes.Resolved? ==>
        analytics == Some(analyticsRes.data) && reps == repsRes.data && calls == callsRes.data
        && error == old(error)
      ensures !(analyticsRes.Resolved? && repsRes.Resolved? && callsRes.Resolved?) ==>
        analytics == old(analytics) && reps == old(reps) && calls == old(calls)
        && error == "Failed to fetch dashboard data"
      ensures !loading && selectedRep == old(selectedRep)
    {
      params := CallsQuery(None);
      if analyticsRes.Resolved? && repsRes.Resolved? && callsRes.Resolved? {
        analytics := Some(analyticsRes.data);
        reps := repsRes.data;
        calls := callsRes.data;
      } else {
        error := "Failed to fetch dashboard data";
      }
      loading := false;
    }

    /** `fetchCalls(repId)`: a failure is only logged, so the loaded calls stay as they were. */
    method FetchCalls(repId: Option<string>, response: Response<seq<Call>>) returns (params: CallsParams)
      modifies this`calls
      ensures params == CallsQuery(repId)
      ensures calls == if response.Resolved? then response.data else old(calls)
    {
      params := CallsQuery(repId);
      if response.Resolved? {
        calls := response.data;
      }
    }

    /** Choosing a rep in the filter refetches the calls, filtered when a rep is chosen. */
    method SelectRep(rep: string, response: Response<seq<Call>>) returns (params: CallsParams)
      modifies this`selectedRep, this`calls
      ensures selectedRep == rep
      ensures params.limit == 20 && params.repId == (if rep != "" then Some(rep) else None)
      ensures calls == if response.Resolved? then response.data else old(calls)
    {
      selectedRep := rep;
      params := FetchCalls(if rep != "" then Some(rep) else None, response);
    }

    /** `exportReport`: the analytics as loaded and the first ten loaded calls. */
    function ExportReport(generatedAt: string): (r: Report)
      reads this
      ensures r.analytics == analytics && r.generatedAt == generatedAt
      ensures r.calls <= calls && |r.calls| <= 10
      ensures |calls| <= 10 ==> r.calls == calls
      ensures r.calls == FirstTen(calls)
    {
      Report(analytics, FirstTen(calls), generatedAt)
    }
  }
}
