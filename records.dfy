/**
 * The JSON records exchanged between the backend and the single-page
 * front end: users, analysed calls, analytics aggregates.
 *
 * Every optional JSON member is a `Field`: the key can be missing, present
 * with `null`, or present with a value. JavaScript's optional chaining treats
 * the first two alike, Python's `dict.get` does not, so the model keeps them
 * apart.
 */
module Records {

  datatype Field<T> = Absent | Null | Present(value: T)

  /** The AI analysis attached to a call; every member is optional. */
  datatype Analysis = Analysis(
    summary: Field<string>,
    keyObjections: Field<seq<string>>,
    buyingSignals: Field<seq<string>>,
    recommendations: Field<seq<string>>,
    overallFeedback: Field<string>)

  /** The analysis `{}`: every member missing. */
  const EmptyAnalysis := Analysis(Absent, Absent, Absent, Absent, Absent)

  /**
   * A stored call analysis. `callDate` is the call's timestamp in
   * milliseconds. The backend stores it as an unvalidated string and sorts
   * that string; the model orders calls by the timestamp instead.
   */
  datatype Call = Call(
    id: string,
    repId: string,
    repName: string,
    title: string,
    callDate: int,
    transcriptUrl: string,
    analysis: Field<Analysis>)

  const RepRole := "rep"
  const ManagerRole := "manager"

  /** The user as the API returns it (and as the front end holds it). */
  datatype User = User(id: string, username: string, role: string, repName: string)

  /** A document of the users collection. */
  datatype UserDoc = UserDoc(
    id: string,
    username: string,
    passwordHash: string,
    role: string,
    repName: string,
    createdAt: string)

  /** An entry of the rep list a manager filters by. */
  datatype RepEntry = RepEntry(id: string, username: string, repName: string)

  datatype ObjectionCount = ObjectionCount(objection: string, count: nat)

  /** The manager analytics aggregate (its `recent_calls` member is not part of this model). */
  datatype Analytics = Analytics(
    totalCalls: nat,
    totalReps: nat,
    repNames: set<string>,
    commonObjections: seq<ObjectionCount>)

  /** The settled outcome of a front-end request: the response body, or a rejection. */
  datatype Response<T> = Resolved(data: T) | Rejected

  /** JavaScript truthiness of an optional string: present and non-empty. */
  predicate Truthy(s: Option<string>)
  {
    s.Some? && s.value != ""
  }

  datatype Option<T> = None | Some(value: T)
}
