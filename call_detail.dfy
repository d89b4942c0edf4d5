/**
 * The call detail view: which screen it shows, the score badge and its
 * colour, and the outcome of its one request.
 */
module CallDetail {
  import opened Records
  import opened Scoring

  datatype Color = Green | Yellow | Red

  /** `getScoreColor`: the score bands. */
  function ScoreColor(score: int): (c: Color)
    ensures c == Green <==> score >= 80
    ensures c == Yellow <==> 60 <= score < 80
    ensures c == Red <==> score < 60
  {
    if score >= 80 then Green
    else if score >= 60 then Yellow
    else Red
  }

  /** The CSS classes of each band. */
  function ColorClasses(c: Color): string
  {
    match c
    case Green => "text-green-600 bg-green-100"
    case Yellow => "text-yellow-600 bg-yellow-100"
    case Red => "text-red-600 bg-red-100"
  }

  /** `getScoreColor(score)`: the classes of the score badge. */
  function BadgeClasses(score: int): (classes: string)
    ensures classes == "text-green-600 bg-green-100" <==> score >= 80
    ensures classes == "text-yellow-600 bg-yellow-100" <==> 60 <= score < 80
    ensures classes == "text-red-600 bg-red-100" <==> score < 60
  {
    ColorClasses(ScoreColor(score))
  }

  /** `call.analysis || {}`. */
  function DetailAnalysis(call: Call): Analysis
  {
    if call.analysis.Present? then call.analysis.value else EmptyAnalysis
  }

  /** The score badge of the detail view. */
  function DetailScore(call: Call): (score: int)
    ensures 10 <= score <= 100
    ensures !call.analysis.Present? ==> score == 60
  {
    CallScore(Present(DetailAnalysis(call)))
  }

  /** Substituting `{}` for a missing analysis changes nothing: the view scores a call as the dashboards do. */
  lemma DetailScoreMatchesDashboards(call: Call)
    ensures DetailScore(call) == CallScore(call.analysis)
  {
  }

  /** A call without analysis scores 60 and is shown yellow. */
  lemma MissingAnalysisIsYellow(call: Call)
    requires !call.analysis.Present?
    ensures ScoreColor(DetailScore(call)) == Yellow
  {
  }

  const NotFoundText := "The requested call could not be found."
  const FetchErrorText := "Failed to fetch call details"

  datatype Screen = Spinner | NotFound(message: string) | Detail(call: Call, score: int, color: Color)

  /** The screen for the given state: spinner, then not-found, then the details. */
  function Render(loading: bool, error: string, call: Option<Call>): (s: Screen)
    ensures s.Spinner? <==> loading
    ensures s.NotFound? <==> !loading && (error != "" || call.None?)
    ensures s.NotFound? ==> s.message == if error != "" then error else NotFoundText
    ensures s.Detail? ==> call == Some(s.call) && s.score == DetailScore(s.call)
                          && s.color == ScoreColor(s.score)
  {
    if loading then Spinner
    else if error != "" || call.None? then NotFound(if error != "" then error else NotFoundText)
    else Detail(call.value, DetailScore(call.value), ScoreColor(DetailScore(call.value)))
  }

  /** The view's component state. */
  class CallDetailView {
    const callId: string
    var call: Option<Call>
    var loading: bool
    var error: string

    constructor (callId: string)
      ensures this.callId == callId && call == None && loading && error == ""
    {
      this.callId := callId;
      call, loading, error := None, true, "";
    }

    /**
     * `fetchCallDetail`: requests `callId`; success stores the call, failure
     * sets the error text; loading ends either way. Neither branch clears an
     * earlier error.
     */
    method FetchCallDetail(response: Response<Call>) returns (requested: string)
      modifies this`call, this`error, this`loading
      ensures requested == callId
      ensures call == if response.Resolved? then Some(response.data) else old(call)
      ensures error == if response.Resolved? then old(error) else FetchErrorText
      ensures !loading
    {
      requested := callId;
      if response.Resolved? {
        call := Some(response.data);
      } else {
        error := FetchErrorText;
      }
      loading := false;
    }

    function View(): Screen
      reads this
    {
      Render(loading, error, call)
    }
  }

  /** After a failed fetch the view shows the not-found screen with the fetch error. */
  lemma FailedFetchShowsNotFound(call: Option<Call>)
    ensures Render(false, FetchErrorText, call) == NotFound(FetchErrorText)
  {
  }
}
