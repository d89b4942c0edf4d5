/**
 * The sales rep's dashboard: the four stats cards it derives from the page
 * of calls it has loaded, and the outcome of its one request.
 */
module RepDashboard {
  import opened Records
  import opened Seqs
  import opened Scoring
  import ManagerDashboard

  /** Seven days in milliseconds. */
  const WeekMs := 7 * 24 * 60 * 60 * 1000

  /** The "Avg Score" card: 0 without calls, otherwise the rounded mean score. */
  function AverageScore(calls: seq<Call>): (avg: int)
    ensures calls == [] ==> avg == 0
    ensures calls != [] ==> 10 <= avg <= 100
    ensures calls != [] ==> |calls| * (2 * avg - 1) <= 2 * ScoreSum(calls) < |calls| * (2 * avg + 1)
  {
    if |calls| > 0 then
      MeanScoreBounds(calls);
      RoundedMean(ScoreSum(calls), |calls|)
    else 0
  }

  /** The calls dated strictly later than one week before `now`, in order. */
  function ThisWeek(calls: seq<Call>, now: int): (recent: seq<Call>)
    ensures |recent| <= |calls|
    ensures forall c :: c in recent ==> c in calls && c.callDate > now - WeekMs
    ensures forall c :: c in calls && c.callDate > now - WeekMs ==> c in recent
    ensures forall c :: multiset(recent)[c] == if c.callDate > now - WeekMs then multiset(calls)[c] else 0
  {
    if calls == [] then []
    else
      var rest := ThisWeek(Init(calls), now);
      InitLast(calls);
      if Last(calls).callDate > now - WeekMs then rest + [Last(calls)] else rest
  }

  datatype StatsCards = StatsCards(totalCalls: nat, avgScore: int, thisWeek: nat, buyingSignals: nat)

  /** The four cards: Total Calls, Avg Score, This Week, Buying Signals. */
  function Stats(calls: seq<Call>, now: int): (cards: StatsCards)
    ensures cards.totalCalls == |calls|
    ensures cards.thisWeek <= cards.totalCalls
    ensures calls == [] ==> cards.avgScore == 0 && cards.buyingSignals == 0
    ensures calls != [] ==> 10 <= cards.avgScore <= 100
    ensures cards.avgScore == AverageScore(calls)
    ensures cards.thisWeek == |ThisWeek(calls, now)|
    ensures cards.buyingSignals == SignalSum(calls)
  {
    StatsCards(|calls|, AverageScore(calls), |ThisWeek(calls, now)|, SignalSum(calls))
  }

  /** A call without a `buying_signals` list (or without any analysis) adds nothing to the Buying Signals card. */
  lemma MissingSignalsAddNothing(calls: seq<Call>, call: Call)
    requires call.analysis.Present? ==> !call.analysis.value.buyingSignals.Present?
    ensures SignalSum(calls + [call]) == SignalSum(calls)
  {
    assert Init(calls + [call]) == calls;
  }

  /** The Buying Signals card adds the signal counts of two pages. */
  lemma {:induction false} SignalSumConcat(a: seq<Call>, b: seq<Call>)
    ensures SignalSum(a + b) == SignalSum(a) + SignalSum(b)
    decreases |b|
  {
    if b == [] {
      assert a + b == a;
    } else {
      assert Init(a + b) == a + Init(b);
      SignalSumConcat(a, Init(b));
    }
  }

  lemma {:induction false} CallsOfOneRep(calls: seq<Call>, name: string)
    requires forall c :: c in calls ==> c.repName == name
    ensures ManagerDashboard.CallsOf(calls, name) == calls
  {
    if calls != [] {
      assert calls == Init(calls) + [Last(calls)];
      CallsOfOneRep(Init(calls), name);
    }
  }

  /**
   * On a page holding only one rep's calls, the rep's Avg Score card shows
   * the same figure as that rep's row in the manager's ranking.
   */
  lemma AverageMatchesManagerRow(calls: seq<Call>, name: string)
    requires calls != []
    requires forall c :: c in calls ==> c.repName == name
    ensures name in ManagerDashboard.RepNames(calls)
    ensures AverageScore(calls) == ManagerDashboard.Performance(calls, name).avgScore
  {
    CallsOfOneRep(calls, name);
    ManagerDashboard.CallsOfCount(calls, name);
    CountPositive(ManagerDashboard.RepNames(calls), name);
  }

  /** The dashboard's component state. */
  class RepDashboardView {
    var calls: seq<Call>
    var loading: bool
    var error: string

    constructor ()
      ensures calls == [] && loading && error == ""
    {
      calls, loading, error := [], true, "";
    }

    /**
     * `fetchCalls`: asks for 10 calls; on success they replace the list, on
     * failure the list stays and the error text is set. Loading ends either way.
     */
    method FetchCalls(response: Response<seq<Call>>) returns (limit: nat)
      modifies this
      ensures limit == 10
      ensures calls == if response.Resolved? then response.data else old(calls)
      ensures error == if response.Resolved? then old(error) else "Failed to fetch calls"
      ensures !loading
    {
      limit := 10;
      if response.Resolved? {
        calls := response.data;
      } else {
        error := "Failed to fetch calls";
      }
      loading := false;
    }

    function Cards(now: int): (cards: StatsCards)
      reads this
      ensures cards.totalCalls == |calls|
      ensures cards == Stats(calls, now)
    {
      Stats(calls, now)
    }
  }
}
