/**
 * The backend's request handlers over in-memory collections: the calls
 * collection is a sequence of `Call` records in stored order, the users
 * collection a sequence of `UserDoc` records. A handler returns its JSON
 * body or the HTTP error FastAPI would send; an uncaught Python exception
 * becomes status 500.
 *
 * The authenticated user is an input: token decoding and password checks
 * are not part of this model.
 */
module Server {
  import opened Records
  import opened Seqs
  import opened Ranking
  import ManagerDashboard

  datatype HttpResult<T> = Ok(value: T) | HttpError(status: nat, detail: string)

  const ServerError := 500

  // ---------------------------------------------------------------- GET /api/calls

  /** The `rep_id` the query filters on, if any: a rep's own id, else a non-empty `rep_id` parameter. */
  function CallsFilter(user: User, repId: Option<string>): (q: Option<string>)
    ensures user.role == RepRole ==> q == Some(user.id)
    ensures user.role != RepRole ==> (q.Some? <==> Truthy(repId)) && (q.Some? ==> q == repId)
  {
    if user.role == RepRole then Some(user.id)
    else if Truthy(repId) then repId
    else None
  }

  /** The stored calls the query matches, in stored order. */
  function Matching(store: seq<Call>, q: Option<string>): (r: seq<Call>)
    ensures |r| <= |store|
    ensures forall c :: c in r <==> c in store && (q.Some? ==> c.repId == q.value)
    ensures forall c :: multiset(r)[c] == if q.None? || c.repId == q.value then multiset(store)[c] else 0
  {
    if store == [] then []
    else
      var rest := Matching(Init(store), q);
      InitLast(store);
      if q.None? || Last(store).repId == q.value then rest + [Last(store)] else rest
  }

  /** Matching keeps stored order: the matches of two stretches of the store are those of each, one after the other. */
  lemma {:induction false} MatchingConcat(a: seq<Call>, b: seq<Call>, q: Option<string>)
    ensures Matching(a + b, q) == Matching(a, q) + Matching(b, q)
    decreases |b|
  {
    if b == [] {
      assert a + b == a;
    } else {
      var x := Last(b);
      MatchingConcat(a, Init(b), q);
      ConcatInitLast(a, b);
      MatchingSnoc(a + Init(b), x, q);
      InitLast(b);
      MatchingSnoc(Init(b), x, q);
      ConcatAssoc(Matching(a, q), Matching(Init(b), q), if q.None? || x.repId == q.value then [x] else []);
    }
  }

  lemma MatchingSnoc(s: seq<Call>, x: Call, q: Option<string>)
    ensures Matching(s + [x], q) == Matching(s, q) + if q.None? || x.repId == q.value then [x] else []
  {
    assert Init(s + [x]) == s;
  }

  /** A single stored call matches exactly when the filter is absent or names its rep. */
  lemma MatchingOne(c: Call, q: Option<string>)
    ensures Matching([c], q) == if q.None? || c.repId == q.value then [c] else []
  {
    assert Init([c]) == [];
  }

  function CallDate(c: Call): int { c.callDate }

  /**
   * pymongo's `limit(n)`: 0 means no limit, and a negative limit returns at
   * most `-n` documents.
   */
  function Limited<T>(s: seq<T>, limit: int): (r: seq<T>)
    ensures limit == 0 ==> r == s
    ensures limit != 0 ==> r <= s && |r| == if |s| <= Abs(limit) then |s| else Abs(limit)
  {
    if limit == 0 then s else Take(s, Abs(limit))
  }

  function Abs(n: int): nat { if n < 0 then -n else n }

  /**
   * `get_calls`: the matching calls, newest first, without the first `skip`
   * and at most `limit` of them. A negative `skip` makes pymongo raise, so
   * the request fails.
   */
  function GetCalls(store: seq<Call>, user: User, repId: Option<string>, limit: int, skip: int): (r: HttpResult<seq<Call>>)
    ensures r.HttpError? <==> skip < 0
    ensures r.HttpError? ==> r.status == ServerError
  {
    if skip < 0 then HttpError(ServerError, "skip must be >= 0")
    else Ok(Limited(Drop(SortDesc(Matching(store, CallsFilter(user, repId)), CallDate), skip), limit))
  }

  lemma {:induction false} DropSorted<T>(s: seq<T>, key: T -> int, n: nat)
    requires NonIncreasing(s, key)
    ensures NonIncreasing(Drop(s, n), key)
  {
    var r := Drop(s, n);
    forall i, j | 0 <= i < j < |r| ensures key(r[i]) >= key(r[j]) {
      assert r[i] == s[n + i] && r[j] == s[n + j];
    }
  }

  /** A page cut from a sorted sequence is a sub-collection of it, in the same order. */
  lemma PageOfSorted<T>(s: seq<T>, key: T -> int, skip: nat, limit: int)
    requires NonIncreasing(s, key)
    ensures NonIncreasing(Limited(Drop(s, skip), limit), key)
    ensures forall x :: x in Limited(Drop(s, skip), limit) ==> x in s
  {
    var dropped := Drop(s, skip);
    var page := Limited(dropped, limit);
    DropSorted(s, key, skip);
    forall i, j | 0 <= i < j < |page| ensures key(page[i]) >= key(page[j]) {
      assert page[i] == dropped[i] && page[j] == dropped[j];
    }
    forall x | x in page ensures x in s {
      var i :| 0 <= i < |page| && page[i] == x;
      assert x == s[skip + i];
    }
  }

  /**
   * Every call `get_calls` returns is a stored call the query matches
   * (a rep's own, whatever `rep_id` says), the page is in non-increasing
   * date order, and it holds at most `limit` calls.
   */
  lemma GetCallsPage(store: seq<Call>, user: User, repId: Option<string>, limit: int, skip: int)
    requires skip >= 0
    ensures NonIncreasing(GetCalls(store, user, repId, limit, skip).value, CallDate)
    ensures forall c :: c in GetCalls(store, user, repId, limit, skip).value ==>
      c in store && (user.role == RepRole ==> c.repId == user.id)
      && (user.role != RepRole && Truthy(repId) ==> c.repId == repId.value)
    ensures limit != 0 ==> |GetCalls(store, user, repId, limit, skip).value| <= Abs(limit)
  {
    var m := Matching(store, CallsFilter(user, repId));
    var sorted := SortDesc(m, CallDate);
    SortDescCorrect(m, CallDate);
    PageOfSorted(sorted, CallDate, skip, limit);
    forall c | c in sorted ensures c in m {
      assert c in multiset(sorted);
    }
  }

  /** A page cut from any sequence is the window after its first `skip` elements. */
  lemma PageWindow<T>(s: seq<T>, skip: nat, limit: int)
    ensures var remaining := if |s| <= skip then 0 else |s| - skip;
      var page := Limited(Drop(s, skip), limit);
      && |page| == (if limit == 0 || remaining <= Abs(limit) then remaining else Abs(limit))
      && (if skip <= |s| then skip + |page| <= |s| && page == s[skip..skip + |page|] else page == [])
  {
    var dropped := Drop(s, skip);
    var page := Limited(dropped, limit);
    if skip <= |s| {
      assert dropped == s[skip..];
      assert page == dropped[..|page|];
    }
  }

  /**
   * `s` arranges the matching calls `m` newest first, and `page` is the
   * window of `s` after its first `skip` calls (empty past the end).
   */
  ghost predicate WindowOfNewestFirst(page: seq<Call>, s: seq<Call>, m: seq<Call>, skip: nat)
  {
    && NonIncreasing(s, CallDate) && multiset(s) == multiset(m)
    && (if skip <= |s| then skip + |page| <= |s| && page == s[skip..skip + |page|] else page == [])
  }

  /**
   * The page is exactly a window of the matching calls arranged newest
   * first: it starts after the first `skip` of them and holds as many as
   * `limit` allows (all that remain when `limit` is 0).
   */
  lemma GetCallsPageExact(store: seq<Call>, user: User, repId: Option<string>, limit: int, skip: int)
    requires skip >= 0
    ensures var m := Matching(store, CallsFilter(user, repId));
      var remaining := if |m| <= skip then 0 else |m| - skip;
      var page := GetCalls(store, user, repId, limit, skip).value;
      && |page| == (if limit == 0 || remaining <= Abs(limit) then remaining else Abs(limit))
      && exists s :: WindowOfNewestFirst(page, s, m, skip)
  {
    var m := Matching(store, CallsFilter(user, repId));
    assert GetCalls(store, user, repId, limit, skip).value == Limited(Drop(SortDesc(m, CallDate), skip), limit);
    SortedPageExact(m, limit, skip);
  }

  /** The window of any sequence of calls sorted newest first, as GetCallsPageExact states it. */
  lemma SortedPageExact(m: seq<Call>, limit: int, skip: int)
    requires skip >= 0
    ensures var remaining := if |m| <= skip then 0 else |m| - skip;
      var page := Limited(Drop(SortDesc(m, CallDate), skip), limit);
      && |page| == (if limit == 0 || remaining <= Abs(limit) then remaining else Abs(limit))
      && exists s :: WindowOfNewestFirst(page, s, m, skip)
  {
    var sorted := SortDesc(m, CallDate);
    var page := Limited(Drop(sorted, skip), limit);
    SortDescSorted(m, CallDate);
    SortDescPermutes(m, CallDate);
    PageWindow(sorted, skip, limit);
    assert WindowOfNewestFirst(page, sorted, m, skip);
  }

  /** The first page without a limit holds every matching call, each as often as it is stored. */
  lemma GetCallsUnlimitedIsComplete(store: seq<Call>, user: User, repId: Option<string>)
    ensures multiset(GetCalls(store, user, repId, 0, 0).value) == multiset(Matching(store, CallsFilter(user, repId)))
  {
    var m := Matching(store, CallsFilter(user, repId));
    SortDescCorrect(m, CallDate);
    assert Drop(SortDesc(m, CallDate), 0) == SortDesc(m, CallDate);
  }

  /** A rep's `rep_id` parameter is ignored: they get the same page whatever they ask for. */
  lemma RepIgnoresRepIdParameter(store: seq<Call>, user: User, repId: Option<string>, limit: int, skip: int)
    requires user.role == RepRole
    ensures GetCalls(store, user, repId, limit, skip) == GetCalls(store, user, None, limit, skip)
  {
  }

  // ---------------------------------------------------------------- GET /api/calls/{call_id}

  /** `find_one({"id": id})`: the first stored call with that id. */
  function FindById(store: seq<Call>, id: string): (r: Option<Call>)
    ensures r.None? <==> forall c :: c in store ==> c.id != id
    ensures r.Some? ==> r.value in store && r.value.id == id
  {
    if store == [] then None
    else if store[0].id == id then Some(store[0])
    else
      var r := FindById(store[1..], id);
      assert forall c :: c in store ==> c == store[0] || c in store[1..];
      r
  }

  /** The call found is the first one in the store with the id. */
  lemma {:induction false} FindByIdFirst(store: seq<Call>, id: string, k: nat)
    requires k < |store| && store[k].id == id
    requires forall j :: 0 <= j < k ==> store[j].id != id
    ensures FindById(store, id) == Some(store[k])
  {
    if k > 0 {
      assert store[1..][k - 1] == store[k];
      FindByIdFirst(store[1..], id, k - 1);
    }
  }

  const NotFound := HttpError(404, "Call not found")
  const AccessDenied := HttpError(403, "Access denied")

  /**
   * `get_call_detail`: 404 for an unknown id, checked before anything
   * else; 403 when a rep asks for another rep's call; otherwise the call.
   */
  function GetCallDetail(store: seq<Call>, user: User, callId: string): (r: HttpResult<Call>)
    ensures r == NotFound <==> forall c :: c in store ==> c.id != callId
    ensures r == AccessDenied <==>
      FindById(store, callId).Some? && user.role == RepRole && FindById(store, callId).value.repId != user.id
    ensures r.Ok? <==>
      FindById(store, callId).Some? && (user.role == RepRole ==> FindById(store, callId).value.repId == user.id)
    ensures r.Ok? ==> r.value in store && r.value.id == callId
  {
    match FindById(store, callId)
    case None => NotFound
    case Some(call) =>
      if user.role == RepRole && call.repId != user.id then AccessDenied else Ok(call)
  }

  /** A manager (indeed anyone who is not a rep) is shown every stored call. */
  lemma NonRepSeesAnyCall(store: seq<Call>, user: User, call: Call)
    requires call in store && user.role != RepRole
    ensures GetCallDetail(store, user, call.id).Ok?
  {
  }

  /** A rep is shown their own calls and refused everyone else's. */
  lemma RepSeesOnlyOwnCalls(store: seq<Call>, user: User, callId: string)
    requires user.role == RepRole
    requires exists c :: c in store && c.id == callId
    ensures GetCallDetail(store, user, callId).Ok? <==> FindById(store, callId).value.repId == user.id
    ensures GetCallDetail(store, user, callId).HttpError? ==> GetCallDetail(store, user, callId) == AccessDenied
  {
  }

  // ---------------------------------------------------------------- manager-only endpoints

  function ManagerRequired<T>(): HttpResult<T>
  {
    HttpError(403, "Manager access required")
  }

  /** The users collection filtered to reps and projected to id, rep name and username, in stored order. */
  function RepEntries(users: seq<UserDoc>): (r: seq<RepEntry>)
    ensures |r| <= |users|
    ensures forall d :: d in users && d.role == RepRole ==> RepEntry(d.id, d.username, d.repName) in r
    ensures forall e :: e in r ==> exists d :: d in users && d.role == RepRole && e == RepEntry(d.id, d.username, d.repName)
  {
    if users == [] then []
    else
      var rest := RepEntries(Init(users));
      var d := Last(users);
      assert users == Init(users) + [d];
      if d.role == RepRole then rest + [RepEntry(d.id, d.username, d.repName)] else rest
  }

  /** The rep list keeps stored order: the entries of two stretches of users are those of each, one after the other. */
  lemma {:induction false} RepEntriesConcat(a: seq<UserDoc>, b: seq<UserDoc>)
    ensures RepEntries(a + b) == RepEntries(a) + RepEntries(b)
    decreases |b|
  {
    if b == [] {
      assert a + b == a;
    } else {
      var d := Last(b);
      RepEntriesConcat(a, Init(b));
      ConcatInitLast(a, b);
      RepEntriesSnoc(a + Init(b), d);
      InitLast(b);
      RepEntriesSnoc(Init(b), d);
      ConcatAssoc(RepEntries(a), RepEntries(Init(b)),
                  if d.role == RepRole then [RepEntry(d.id, d.username, d.repName)] else []);
    }
  }

  lemma RepEntriesSnoc(s: seq<UserDoc>, d: UserDoc)
    ensures RepEntries(s + [d]) == RepEntries(s) + if d.role == RepRole then [RepEntry(d.id, d.username, d.repName)] else []
  {
    assert Init(s + [d]) == s;
  }

  /** A single user gives one entry exactly when it is a rep, and none otherwise. */
  lemma RepEntriesOne(d: UserDoc)
    ensures RepEntries([d]) == if d.role == RepRole then [RepEntry(d.id, d.username, d.repName)] else []
  {
    assert Init([d]) == [];
  }

  /** `get_reps`: refused with 403 to anyone but a manager. */
  function GetReps(user: User, users: seq<UserDoc>): (r: HttpResult<seq<RepEntry>>)
    ensures r.HttpError? <==> user.role != ManagerRole
    ensures r.HttpError? ==> r == ManagerRequired()
    ensures r.Ok? ==> forall e :: e in r.value ==> exists d :: d in users && d.role == RepRole && e.id == d.id
    ensures r.Ok? ==> r.value == RepEntries(users)
  {
    if user.role != ManagerRole then ManagerRequired() else Ok(RepEntries(users))
  }

  // ---------------------------------------------------------------- GET /api/dashboard/manager/analytics

  /**
   * What one call adds to `all_objections`: nothing without an `analysis`
   * key or without a `key_objections` key; a `null` in either place makes
   * Python raise (`None` supports neither `in` nor `extend`).
   */
  function ObjectionsOf(call: Call): (r: Option<seq<string>>)
    ensures r.None? <==> call.analysis.Null? || (call.analysis.Present? && call.analysis.value.keyObjections.Null?)
    ensures call.analysis.Present? && call.analysis.value.keyObjections.Present? ==>
      r == Some(call.analysis.value.keyObjections.value)
  {
    match call.analysis
    case Absent => Some([])
    case Null => None
    case Present(a) =>
      match a.keyObjections
      case Absent => Some([])
      case Null => None
      case Present(l) => Some(l)
  }

  /** `all_objections` after the extend loop, or `None` when the loop raises. */
  function AllObjections(calls: seq<Call>): (r: Option<seq<string>>)
    ensures r.None? <==> exists c :: c in calls && ObjectionsOf(c).None?
  {
    if calls == [] then Some([])
    else
      InitLast(calls);
      assert forall c :: c in calls <==> c in Init(calls) || c == Last(calls);
      match AllObjections(Init(calls))
      case None => None
      case Some(prefix) =>
        match ObjectionsOf(Last(calls))
        case None => None
        case Some(more) => Some(prefix + more)
  }

  /** Once the extend loop has raised, later calls cannot undo it. */
  lemma {:induction false} AllObjectionsFailureSticks(calls: seq<Call>, i: nat)
    requires i <= |calls| && AllObjections(calls[..i]).None?
    ensures AllObjections(calls).None?
    decreases |calls| - i
  {
    if i < |calls| {
      assert calls[..i + 1][..i] == calls[..i];
      assert Init(calls[..i + 1]) == calls[..i];
      AllObjectionsFailureSticks(calls, i + 1);
    } else {
      assert calls[..i] == calls;
    }
  }

  /** A call without a `key_objections` list (or without an analysis) contributes nothing. */
  lemma MissingObjectionsAddNothing(calls: seq<Call>, call: Call)
    requires call.analysis.Absent? || (call.analysis.Present? && call.analysis.value.keyObjections.Absent?)
    ensures AllObjections(calls + [call]) == AllObjections(calls)
  {
    assert Init(calls + [call]) == calls;
    if AllObjections(calls).Some? {
      assert AllObjections(calls).value + [] == AllObjections(calls).value;
    }
  }

  function ObjectionCountOf(e: ObjectionCount): int { e.count }

  /** `objection_counts.items()`: each distinct objection, in first-seen order, with its number of occurrences. */
  function ObjectionTable(all: seq<string>): (table: seq<ObjectionCount>)
    ensures |table| == |Distinct(all)|
    ensures forall k :: 0 <= k < |table| ==> table[k] == ObjectionCount(Distinct(all)[k], Count(all, Distinct(all)[k]))
  {
    var d := Distinct(all);
    seq(|d|, k requires 0 <= k < |d| => ObjectionCount(d[k], Count(all, d[k])))
  }

  /** `sorted(..., key=count, reverse=True)[:5]`. */
  function CommonObjections(all: seq<string>): (common: seq<ObjectionCount>)
    ensures |common| == if |Distinct(all)| <= 5 then |Distinct(all)| else 5
  {
    SortDescPermutes(ObjectionTable(all), ObjectionCountOf);
    Take(SortDesc(ObjectionTable(all), ObjectionCountOf), 5)
  }

  /** The `set` of rep names, as Python builds it. */
  function RepNameSet(calls: seq<Call>): set<string>
  {
    set c | c in calls :: c.repName
  }

  /** The analytics body for calls whose objections were gathered into `all`. */
  function AnalyticsOf(calls: seq<Call>, all: seq<string>): (a: Analytics)
    ensures a.totalCalls == |calls| && a.totalReps == |a.repNames|
    ensures forall c :: c in calls ==> c.repName in a.repNames
    ensures forall n :: n in a.repNames ==> exists c :: c in calls && c.repName == n
    ensures |a.commonObjections| <= 5
  {
    Analytics(|calls|, |RepNameSet(calls)|, RepNameSet(calls), CommonObjections(all))
  }

  /** `keys` and `counts` are what the counting loop holds after visiting `seen`. */
  ghost predicate Counted(seen: seq<string>, keys: seq<string>, counts: map<string, nat>)
  {
    && keys == Distinct(seen)
    && (forall o :: o in counts <==> o in seen)
    && (forall o :: o in counts ==> counts[o] == Count(seen, o))
  }

  lemma CountedStep(seen: seq<string>, o: string, keys: seq<string>, counts: map<string, nat>)
    requires Counted(seen, keys, counts)
    ensures Counted(seen + [o], if o in counts then keys else keys + [o],
                    counts[o := (if o in counts then counts[o] else 0) + 1])
  {
    assert Init(seen + [o]) == seen;
    DistinctContents(seen);
    CountPositive(seen, o);
    forall x | x in seen + [o] ensures x in seen || x == o {
    }
  }

  /**
   * `get_manager_analytics`: refused with 403 to anyone but a manager;
   * otherwise the counts, the set of rep names and the five most frequent
   * objections, or 500 when an analysis or its objection list is `null`.
   * The `recent_calls` count and the date parsing it does are not modelled,
   * so the `Ok` result assumes that parsing does not raise.
   */
  method GetManagerAnalytics(user: User, calls: seq<Call>) returns (r: HttpResult<Analytics>)
    ensures user.role != ManagerRole ==> r == ManagerRequired()
    ensures user.role == ManagerRole ==>
      if AllObjections(calls).None? then r.HttpError? && r.status == ServerError
      else r == Ok(AnalyticsOf(calls, AllObjections(calls).value))
  {
    if user.role != ManagerRole {
      return ManagerRequired();
    }
    var all: seq<string> := [];
    var i := 0;
    while i < |calls|
      invariant 0 <= i <= |calls|
      invariant AllObjections(calls[..i]) == Some(all)
    {
      assert Init(calls[..i + 1]) == calls[..i];
      var more := ObjectionsOf(calls[i]);
      if more.None? {
        AllObjectionsFailureSticks(calls, i + 1);
        return HttpError(ServerError, "'NoneType' object is not iterable");
      }
      all := all + more.value;
      i := i + 1;
    }
    assert calls[..i] == calls;

    var keys: seq<string> := [];
    var counts: map<string, nat> := map[];
    var j := 0;
    while j < |all|
      invariant 0 <= j <= |all|
      invariant Counted(all[..j], keys, counts)
    {
      var o := all[j];
      assert all[..j + 1] == all[..j] + [o];
      CountedStep(all[..j], o, keys, counts);
      if o !in counts {
        keys := keys + [o];
      }
      counts := counts[o := (if o in counts then counts[o] else 0) + 1];
      j := j + 1;
    }
    assert all[..j] == all;

    DistinctContents(all);
    var items := seq(|keys|, k requires 0 <= k < |keys| => ObjectionCount(keys[k], counts[keys[k]]));
    assert items == ObjectionTable(all);
    var common := Take(SortDesc(items, ObjectionCountOf), 5);
    var reps := set c | c in calls :: c.repName;
    r := Ok(Analytics(|calls|, |reps|, reps, common));
  }

  function ObjectionOf(e: ObjectionCount): string { e.objection }

  /**
   * The sorted count table holds, for every objection that occurs, exactly
   * one entry with its number of occurrences, and nothing else.
   */
  lemma SortedTableFacts(all: seq<string>)
    ensures DistinctBy(SortDesc(ObjectionTable(all), ObjectionCountOf), ObjectionOf)
    ensures forall e :: e in SortDesc(ObjectionTable(all), ObjectionCountOf) ==>
      e.objection in all && e.count == Count(all, e.objection)
    ensures forall o :: o in all ==> ObjectionCount(o, Count(all, o)) in SortDesc(ObjectionTable(all), ObjectionCountOf)
  {
    SortedTableDistinct(all);
    SortedTableCounts(all);
    SortedTableCovers(all);
  }

  lemma SortedTableDistinct(all: seq<string>)
    ensures DistinctBy(SortDesc(ObjectionTable(all), ObjectionCountOf), ObjectionOf)
  {
    var table := ObjectionTable(all);
    DistinctContents(all);
    DistinctNoDup(all);
    assert DistinctBy(table, ObjectionOf);
    SortDescDistinct(table, ObjectionCountOf, ObjectionOf);
  }

  lemma SortedTableCounts(all: seq<string>)
    ensures forall e :: e in SortDesc(ObjectionTable(all), ObjectionCountOf) ==>
      e.objection in all && e.count == Count(all, e.objection)
  {
    var table := ObjectionTable(all);
    SortDescPermutes(table, ObjectionCountOf);
    DistinctContents(all);
    forall e | e in SortDesc(table, ObjectionCountOf) ensures e.objection in all && e.count == Count(all, e.objection) {
      assert e in multiset(table);
    }
  }

  lemma SortedTableCovers(all: seq<string>)
    ensures forall o :: o in all ==> ObjectionCount(o, Count(all, o)) in SortDesc(ObjectionTable(all), ObjectionCountOf)
  {
    var table := ObjectionTable(all);
    var sorted := SortDesc(table, ObjectionCountOf);
    SortDescPermutes(table, ObjectionCountOf);
    DistinctContents(all);
    forall o | o in all ensures ObjectionCount(o, Count(all, o)) in sorted {
      var k :| 0 <= k < |Distinct(all)| && Distinct(all)[k] == o;
      assert table[k] == ObjectionCount(o, Count(all, o));
      assert table[k] in multiset(sorted);
    }
  }


  /** An objection missing from the top five occurs at most as often as the fifth. */
  lemma UnlistedAtMostFifth(all: seq<string>, o: string)
    requires o in all && |Distinct(all)| > 5
    requires forall e :: e in CommonObjections(all) ==> e.objection != o
    ensures |CommonObjections(all)| == 5
    ensures Count(all, o) <= CommonObjections(all)[4].count
  {
    var sorted := SortDesc(ObjectionTable(all), ObjectionCountOf);
    SortDescCorrect(ObjectionTable(all), ObjectionCountOf);
    SortedTableFacts(all);
    assert forall i :: 0 <= i < 5 ==> sorted[i] in CommonObjections(all);
    var k :| 0 <= k < |sorted| && sorted[k] == ObjectionCount(o, Count(all, o));
    assert k >= 5;
  }

  /**
   * The common objections are at most five distinct objections, each with
   * its true number of occurrences, in non-increasing count order; no
   * objection left out occurs more often than the last one listed, and
   * when there are at most five distinct objections all of them are listed.
   */
  lemma CommonObjectionsCorrect(all: seq<string>)
    ensures |CommonObjections(all)| <= 5
    ensures NonIncreasing(CommonObjections(all), ObjectionCountOf)
    ensures DistinctBy(CommonObjections(all), ObjectionOf)
    ensures forall e :: e in CommonObjections(all) ==> e.objection in all && e.count == Count(all, e.objection)
    ensures |Distinct(all)| <= 5 ==> forall o :: o in all ==> ObjectionCount(o, Count(all, o)) in CommonObjections(all)
    ensures |Distinct(all)| > 5 ==>
      && |CommonObjections(all)| == 5
      && forall o :: o in all && (forall e :: e in CommonObjections(all) ==> e.objection != o) ==>
           Count(all, o) <= CommonObjections(all)[4].count
  {
    var sorted := SortDesc(ObjectionTable(all), ObjectionCountOf);
    SortDescCorrect(ObjectionTable(all), ObjectionCountOf);
    SortedTableFacts(all);
    if |Distinct(all)| > 5 {
      forall o | o in all && (forall e :: e in CommonObjections(all) ==> e.objection != o)
        ensures Count(all, o) <= CommonObjections(all)[4].count
      {
        UnlistedAtMostFifth(all, o);
      }
    }
  }

  /** Objections with equal counts are listed in the order they were first seen. */
  lemma CommonObjectionsTiesInFirstSeenOrder(all: seq<string>, count: int)
    ensures CommonObjections(all) <= SortDesc(ObjectionTable(all), ObjectionCountOf)
    ensures WithKey(SortDesc(ObjectionTable(all), ObjectionCountOf), ObjectionCountOf, count)
         == WithKey(ObjectionTable(all), ObjectionCountOf, count)
  {
    SortDescStable(ObjectionTable(all), ObjectionCountOf, count);
  }

  /** `total_reps` is the number of rows the manager dashboard ranks on the same calls. */
  lemma TotalRepsMatchesRanking(calls: seq<Call>, all: seq<string>)
    ensures AnalyticsOf(calls, all).totalCalls == |calls|
    ensures AnalyticsOf(calls, all).totalReps == |ManagerDashboard.RankingOf(calls)|
  {
    ManagerDashboard.RankingCorrect(calls);
    RepNameSetIsNames(calls);
  }

  lemma {:induction false} RepNameSetIsNames(calls: seq<Call>)
    ensures RepNameSet(calls) == set n | n in ManagerDashboard.RepNames(calls)
  {
    if calls != [] {
      RepNameSetIsNames(Init(calls));
      assert calls == Init(calls) + [Last(calls)];
      assert RepNameSet(calls) == RepNameSet(Init(calls)) + {Last(calls).repName};
    }
  }

  // ---------------------------------------------------------------- tokens

  /** Microseconds, the resolution of Python's `timedelta`. */
  const MicrosPerMinute := 60 * 1000 * 1000
  const DefaultTokenMinutes := 15
  const DefaultExpireMinutes := 1440

  /**
   * `create_access_token`'s `exp`: now plus the given lifetime when it is
   * truthy, that is given and non-zero; otherwise now plus 15 minutes.
   */
  function TokenExpiry(now: int, delta: Option<int>): (exp: int)
    ensures delta.Some? && delta.value != 0 ==> exp == now + delta.value
    ensures delta.None? || delta.value == 0 ==> exp == now + 15 * MicrosPerMinute
  {
    if delta.Some? && delta.value != 0 then now + delta.value else now + DefaultTokenMinutes * MicrosPerMinute
  }

  /** The expiry of a login token when `JWT_EXPIRE_MINUTES` is `minutes`. */
  function LoginTokenExpiry(now: int, minutes: int): int
  {
    TokenExpiry(now, Some(minutes * MicrosPerMinute))
  }

  /**
   * A login token lives 24 hours by default; a configured lifetime of 0
   * minutes does not make it expire at once but falls back to 15 minutes.
   */
  lemma LoginTokenLifetime(now: int, minutes: int)
    ensures LoginTokenExpiry(now, DefaultExpireMinutes) == now + 24 * 60 * MicrosPerMinute
    ensures minutes != 0 ==> LoginTokenExpiry(now, minutes) == now + minutes * MicrosPerMinute
    ensures LoginTokenExpiry(now, 0) == now + 15 * MicrosPerMinute
  {
  }

  // ---------------------------------------------------------------- seeding

  /** The fresh values one seeded user draws: a UUID, its password hash, a creation time. */
  datatype Minted = Minted(id: string, passwordHash: string, createdAt: string)

  function SeedDoc(m: Minted, username: string, role: string, repName: string): UserDoc
  {
    UserDoc(m.id, username, m.passwordHash, role, repName, m.createdAt)
  }

  /** The three default users, in insertion order. */
  function DefaultUsers(jane: Minted, john: Minted, manager: Minted): (docs: seq<UserDoc>)
    ensures |docs| == 3
    ensures docs[0].username == "jane.doe" && docs[0].role == RepRole && docs[0].repName == "Jane Doe"
    ensures docs[1].username == "john.smith" && docs[1].role == RepRole && docs[1].repName == "John Smith"
    ensures docs[2].username == "manager" && docs[2].role == ManagerRole && docs[2].repName == "Sales Manager"
  {
    [SeedDoc(jane, "jane.doe", RepRole, "Jane Doe"),
     SeedDoc(john, "john.smith", RepRole, "John Smith"),
     SeedDoc(manager, "manager", ManagerRole, "Sales Manager")]
  }

  /** The users collection after `init_default_users`: seeded only when it is empty. */
  function Seeded(users: seq<UserDoc>, jane: Minted, john: Minted, manager: Minted): (r: seq<UserDoc>)
    ensures users == [] ==> r == DefaultUsers(jane, john, manager)
    ensures users != [] ==> r == users
  {
    if |users| == 0 then DefaultUsers(jane, john, manager) else users
  }

  /** Seeding twice is seeding once, whatever the second run draws. */
  lemma SeedingIsIdempotent(users: seq<UserDoc>, a: Minted, b: Minted, c: Minted, a': Minted, b': Minted, c': Minted)
    ensures Seeded(Seeded(users, a, b, c), a', b', c') == Seeded(users, a, b, c)
  {
  }

  /** On a freshly seeded collection the manager's rep list is Jane Doe then John Smith. */
  lemma SeededRepList(jane: Minted, john: Minted, manager: Minted, user: User)
    requires user.role == ManagerRole
    ensures GetReps(user, Seeded([], jane, john, manager))
         == Ok([RepEntry(jane.id, "jane.doe", "Jane Doe"), RepEntry(john.id, "john.smith", "John Smith")])
  {
    var docs := DefaultUsers(jane, john, manager);
    var e1, e2 := RepEntry(jane.id, "jane.doe", "Jane Doe"), RepEntry(john.id, "john.smith", "John Smith");
    assert RepEntries(docs[..1]) == [e1] by {
      assert Init(docs[..1]) == [];
    }
    assert RepEntries(docs[..2]) == [e1, e2] by {
      assert Init(docs[..2]) == docs[..1];
    }
    assert RepEntries(docs) == [e1, e2] by {
      assert Init(docs) == docs[..2];
    }
  }

  /** The users collection, which `init_default_users` fills at startup. */
  class UserCollection {
    var docs: seq<UserDoc>

    constructor (docs: seq<UserDoc>)
      ensures this.docs == docs
    {
      this.docs := docs;
    }

    /** Inserts the three default users when the collection holds no document, and does nothing otherwise. */
    method InitDefaultUsers(jane: Minted, john: Minted, manager: Minted) returns (inserted: nat)
      modifies this
      ensures docs == Seeded(old(docs), jane, john, manager)
      ensures inserted == if old(docs) == [] then 3 else 0
    {
      if |docs| == 0 {
        docs := docs + DefaultUsers(jane, john, manager);
        inserted := 3;
      } else {
        inserted := 0;
      }
    }
  }
}
