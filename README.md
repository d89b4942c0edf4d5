# Sales call review: a Dafny model of its rules

The application reviews recorded sales calls. Sales reps and managers sign in to a React single-page front end. A FastAPI backend serves the analysed calls from MongoDB, and a Gemini client answers chat questions about sales technique or about one call. This project models the logic underneath the views:

- the client-side call score and the aggregates the two dashboards build from the calls they have loaded;
- the chat widget's transcript buffer and its send state machine;
- the backend's rules for filtering, paging and access to calls, its manager-only analytics (objection counting and the top-five cut), token expiry and default-user seeding;
- the plain-text call context the Gemini client puts in front of the model;
- the route table of the front end.

Modules follow the source files:

| module | file | models |
|---|---|---|
| `Records` | records.dfy | the JSON records. A JSON member is `Absent`, `Null` or `Present`, because Python's `dict.get` tells the first two apart and JavaScript's optional chaining does not |
| `Seqs`, `Ranking` | seqs.dfy, ranking.dfy | sequence helpers; `SortDesc`, a stable descending sort, shared by `Array.prototype.sort`, Python's `sorted(..., reverse=True)` and the Mongo date sort |
| `Scoring` | scoring.dfy | `getCallScore`, defined once for the three views that each carry a copy, plus half-up rounding of means |
| `ManagerDashboard` | manager_dashboard.dfy | `getRepPerformance` (its `forEach` counting loop is a method proved against a fold), the request parameters, the state updates and the export |
| `RepDashboard` | rep_dashboard.dfy | the four stats cards and `fetchCalls` |
| `CallDetail` | call_detail.dfy | the score colour bands, the choice of screen and `fetchCallDetail` |
| `ChatBot` | chatbot.dfy | the history flatten-and-truncate, and `sendMessage` as a class over the `messages`, `inputMessage` and `loading` state |
| `Server` | server.dfy | the `get_calls`, `get_call_detail`, `get_manager_analytics` and `get_reps` handlers over in-memory collections; `create_access_token` expiry; `init_default_users` |
| `Lines` | lines.dfy | splitting text at `'\n'` and joining lines, used to read the generated context back line by line |
| `GeminiClient` | gemini_client.dfy | `_format_list`, `_prepare_call_context`, `is_configured`, and both chat entry points up to the model call |
| `AppRoutes` | app_routes.dfy | the `AppRoutes` decision table |

Inputs the program takes from outside are parameters here:

- the authenticated user;
- the current time, as an integer timestamp;
- the outcome of every HTTP request (a `Response`: resolved with a body, or rejected);
- the fresh values a seeded user draws (UUID, password hash, creation time);
- the API key;
- the model's reply (a text, or an exception message).

Three details of the source shape the model:

- The call score is clamped to [10, 100] (frontend/src/components/ManagerDashboard.js:91).
- The chat widget tags answers `'ai'` (frontend/src/components/ChatBot.js:29-32). In the model the sender is `FromAi`.
- `get_call_detail` looks the call up before it checks access, so an unknown id gets 404 even for a rep (backend/server.py:255-260).

## Model

| member | source | states |
|---|---|---|
| Scoring.CallScore | frontend/src/components/ManagerDashboard.js:86-93 | the call score always lies in [10, 100] |
| Scoring.ScoreUnclamped | frontend/src/components/RepDashboard.js:39-47 | inside the clamp bounds, the score is exactly 60 + 15·signals − 10·objections − 5·recommendations |
| Scoring.ScoreSaturates | frontend/src/components/ManagerDashboard.js:91 | a raw score of 100 or more is shown as 100, and one of 10 or less as 10 |
| Scoring.SaturationExamples | frontend/src/components/ManagerDashboard.js:91 | five signals alone reach the cap of 100; ten objections alone reach the floor of 10 |
| Scoring.MissingListsScoreSixty | frontend/src/components/ManagerDashboard.js:87-91 | a missing analysis, or one with no recommendation, objection or signal list, scores 60 |
| Scoring.ScoreMonotone | frontend/src/components/ManagerDashboard.js:91 | more signals, fewer objections and fewer recommendations never lower the score |
| Scoring.RoundedMean | frontend/src/components/ManagerDashboard.js:115 | `Math.round(total / n)` is the integer nearest the mean, with halves rounded up |
| Scoring.RoundedMeanBounds | frontend/src/components/RepDashboard.js:75 | the rounded mean of values in [lo, hi] lies in [lo, hi] |
| Scoring.ScoreSumBounds | frontend/src/components/RepDashboard.js:75 | the sum of n scores lies in [10·n, 100·n] |
| Scoring.MeanScoreBounds | frontend/src/components/ManagerDashboard.js:108-115 | the rounded mean score of a non-empty list lies in [10, 100] |
| Ranking.SortDescCorrect | frontend/src/components/ManagerDashboard.js:119 | the sort yields a non-increasing order and a permutation of its input; lengths and every sum are preserved |
| Ranking.SortDescStable | backend/server.py:290 | entries with equal keys keep their relative order (the sort is stable) |
| Ranking.SortDescDistinct | frontend/src/components/ManagerDashboard.js:119 | sorting keeps entries distinct under any projection |
| ManagerDashboard.TallyStep | frontend/src/components/ManagerDashboard.js:97-110 | visiting one call bumps the counters of its rep (calls, score, objections, signals) and of no other rep |
| ManagerDashboard.CallsOfCount | frontend/src/components/ManagerDashboard.js:107 | a rep's call counter is the number of times their name occurs among the calls |
| ManagerDashboard.RepHasCalls | frontend/src/components/ManagerDashboard.js:98-107 | every rep that appears has at least one call, so the average never divides by zero |
| ManagerDashboard.Performance | frontend/src/components/ManagerDashboard.js:113-118 | a row carries the rep's name, at least one call and an average in [10, 100] |
| ManagerDashboard.TallyByRep | frontend/src/components/ManagerDashboard.js:96-111 | the `forEach` loop leaves one counter record per distinct rep name, in first-seen order, and each record holds the count and sums over exactly that rep's calls |
| ManagerDashboard.GetRepPerformance | frontend/src/components/ManagerDashboard.js:95-120 | the method (counting loop, map, sort) returns the ranking `RankingOf`, whose properties are the lemmas below |
| ManagerDashboard.RankingOf | frontend/src/components/ManagerDashboard.js:113-120 | the rows sorted by average; what the ranking holds is stated by RankingCorrect, RankingCountsAllCalls and RankingTiesInFirstSeenOrder |
| ManagerDashboard.RankingCorrect | frontend/src/components/ManagerDashboard.js:95-120 | the ranking has exactly one row per distinct rep name, each row being that rep's counts and rounded mean, in non-increasing average order |
| ManagerDashboard.RankingCountsAllCalls | frontend/src/components/ManagerDashboard.js:107 | the rows' call counts add up to the number of loaded calls |
| ManagerDashboard.RankingTiesInFirstSeenOrder | frontend/src/components/ManagerDashboard.js:113-119 | reps with equal averages appear in the order they were first seen among the calls |
| ManagerDashboard.CallsQuery | frontend/src/components/ManagerDashboard.js:48-49 | `fetchCalls` always asks for 20 calls, and sends `rep_id` exactly when a non-empty one is selected |
| ManagerDashboard.FirstTen | frontend/src/components/ManagerDashboard.js:271 | the listed calls are a prefix of the loaded calls, of length min(10, n) |
| ManagerDashboard.ManagerDashboardView.constructor | frontend/src/components/ManagerDashboard.js:8-13 | the initial state: nothing loaded, loading, no error |
| ManagerDashboard.ManagerDashboardView.FetchData | frontend/src/components/ManagerDashboard.js:27-44 | analytics, reps and calls are stored only when all three requests succeed; otherwise only the error text is set; loading ends either way |
| ManagerDashboard.ManagerDashboardView.FetchCalls | frontend/src/components/ManagerDashboard.js:46-56 | the request uses `CallsQuery`; on failure the loaded calls are unchanged |
| ManagerDashboard.ManagerDashboardView.SelectRep | frontend/src/components/ManagerDashboard.js:19-25 | choosing a rep refetches 20 calls, filtered by that rep unless the choice is empty |
| ManagerDashboard.ManagerDashboardView.ExportReport | frontend/src/components/ManagerDashboard.js:58-63 | the report holds the analytics as loaded and exactly `FirstTen` of the loaded calls: the first min(10, n) of them |
| RepDashboard.AverageScore | frontend/src/components/RepDashboard.js:75 | Avg Score is 0 without calls; otherwise it is the half-up rounded mean score, in [10, 100] |
| RepDashboard.ThisWeek | frontend/src/components/RepDashboard.js:82-87 | This Week holds exactly the loaded calls dated strictly after now minus seven days, each as often as it was loaded (and no other call), so there are at most as many as loaded |
| RepDashboard.Stats | frontend/src/components/RepDashboard.js:67-97 | Total Calls is the number of loaded calls; Avg Score is `AverageScore` (0 without calls, else the half-up mean, in [10, 100]); This Week is the number of `ThisWeek` calls, at most Total Calls; Buying Signals is `SignalSum` |
| RepDashboard.MissingSignalsAddNothing | frontend/src/components/RepDashboard.js:94 | a call without a `buying_signals` list adds nothing to Buying Signals |
| RepDashboard.SignalSumConcat | frontend/src/components/RepDashboard.js:94 | Buying Signals is additive over concatenated pages |
| RepDashboard.AverageMatchesManagerRow | frontend/src/components/RepDashboard.js:75 | on a page of one rep's calls, Avg Score equals that rep's average in the manager ranking |
| RepDashboard.RepDashboardView.constructor | frontend/src/components/RepDashboard.js:8-10 | the initial state: no calls, loading, no error |
| RepDashboard.RepDashboardView.FetchCalls | frontend/src/components/RepDashboard.js:17-27 | asks for 10 calls; success replaces the calls; failure keeps them and sets the error text; loading ends either way |
| RepDashboard.RepDashboardView.Cards | frontend/src/components/RepDashboard.js:69 | the cards are exactly `Stats` of the loaded calls; Total Calls is their number |
| CallDetail.ScoreColor | frontend/src/components/CallDetail.js:59-63 | the bands partition the scores: green exactly from 80, yellow exactly in [60, 80), red exactly below 60 |
| CallDetail.BadgeClasses | frontend/src/components/CallDetail.js:59-63 | the badge gets the green classes exactly from 80, the yellow ones exactly in [60, 80), the red ones exactly below 60 |
| CallDetail.DetailScore | frontend/src/components/CallDetail.js:94-95 | the badge score lies in [10, 100], and is 60 for a call without analysis |
| CallDetail.DetailScoreMatchesDashboards | frontend/src/components/CallDetail.js:50-57 | substituting `{}` for a missing analysis gives the score the dashboards compute |
| CallDetail.MissingAnalysisIsYellow | frontend/src/components/CallDetail.js:94-95 | a call without analysis is shown yellow |
| CallDetail.Render | frontend/src/components/CallDetail.js:65-95 | the spinner exactly while loading; otherwise not-found exactly when there is an error or no call (showing the error, else the fixed text); otherwise the details with the call's score and colour |
| CallDetail.CallDetailView.constructor | frontend/src/components/CallDetail.js:20-22 | the initial state: no call, loading, no error |
| CallDetail.CallDetailView.FetchCallDetail | frontend/src/components/CallDetail.js:28-38 | requests the route's id; success stores the call; failure sets the error text; loading ends either way |
| CallDetail.FailedFetchShowsNotFound | frontend/src/components/CallDetail.js:33-36 | after a failed fetch the view shows not-found with the fetch error |
| ChatBot.Flatten | frontend/src/components/ChatBot.js:29-32 | each stored record becomes two messages, so the length doubles |
| ChatBot.FlattenAt | frontend/src/components/ChatBot.js:29-32 | record i becomes the user message at position 2i and the ai message at 2i+1, both with the record's timestamp |
| ChatBot.LastN | frontend/src/components/ChatBot.js:33 | for a positive n (the call uses `slice(-10)`), `slice(-n)` is the suffix of length min(n, length) |
| ChatBot.FlattenSuffix | frontend/src/components/ChatBot.js:29-32 | dropping the first k records drops the first 2k messages |
| ChatBot.HistoryBuffer | frontend/src/components/ChatBot.js:29-33 | the loaded buffer has min(10, 2n) messages and is the tail of the flattened history |
| ChatBot.HistoryKeepsLastFiveExchanges | frontend/src/components/ChatBot.js:29-33 | the loaded buffer is exactly the last five exchanges, or all of them when there are fewer; its length is min(10, 2n) |
| ChatBot.SevenExchangesKeepTen | frontend/src/components/ChatBot.js:33 | seven stored exchanges load as the ten messages from the third exchange's question to the seventh's answer |
| ChatBot.Trim | frontend/src/components/ChatBot.js:40 | `trim()` never lengthens the input, and what it returns neither starts nor ends with JavaScript white space |
| ChatBot.TrimEmptyIffBlank | frontend/src/components/ChatBot.js:40 | `!input.trim()` holds exactly when the input is all white space, the empty input included |
| ChatBot.ReplyMessage | frontend/src/components/ChatBot.js:55-69 | the answer is an ai message: the reply with its timestamp, or the fixed error text stamped now |
| ChatBot.ChatWidget.constructor | frontend/src/components/ChatBot.js:5-8 | the initial state: empty buffer, empty input, not loading |
| ChatBot.ChatWidget.Mount | frontend/src/components/ChatBot.js:12-16 | history is requested exactly when `callId` is truthy; a loaded history replaces the buffer, and a failure leaves it |
| ChatBot.ChatWidget.SetInput | frontend/src/components/ChatBot.js:7 | typing sets the input |
| ChatBot.ChatWidget.BeginSend | frontend/src/components/ChatBot.js:39-53 | blank input or a pending send changes nothing; otherwise the untrimmed input is sent and appended as a user message, the input is cleared and loading is set |
| ChatBot.ChatWidget.FinishSend | frontend/src/components/ChatBot.js:55-72 | exactly one answer (reply or error text) is appended, and loading ends |
| ChatBot.ChatWidget.SendMessage | frontend/src/components/ChatBot.js:39-73 | a whole send is a no-op under the guard; otherwise it appends the user message and then one answer, clears the input and ends not loading; the old buffer is always a prefix of the new one |
| Server.CallsFilter | backend/server.py:234-240 | a rep is filtered to their own id whatever `rep_id` says; anyone else is filtered by a non-empty `rep_id`, otherwise not at all |
| Server.Matching | backend/server.py:242 | `find(query)` returns exactly the stored calls the filter matches, each as often as it is stored, and no other |
| Server.MatchingOne | backend/server.py:242 | a single stored call is returned exactly when the filter matches it |
| Server.MatchingConcat | backend/server.py:242 | the matches of two stretches of the collection are the matches of the first followed by those of the second, so stored order is kept |
| Server.Limited | backend/server.py:242 | `limit(0)` returns everything; `limit(n)` returns a prefix of at most abs(n) |
| Server.GetCalls | backend/server.py:226-248 | the request fails with 500 exactly when `skip` is negative |
| Server.GetCallsPage | backend/server.py:234-242 | every returned call is stored and matches the filter (a rep's own, whatever `rep_id`); the page is in non-increasing date order and holds at most abs(limit) calls |
| Server.GetCallsPageExact | backend/server.py:242 | for every skip and limit, the page has exactly min(limit, remaining) calls (all remaining when limit is 0), and it is the window after the first skip calls of the matches arranged newest first |
| Server.GetCallsUnlimitedIsComplete | backend/server.py:242 | with no skip and no limit, the page is a permutation of the matching calls |
| Server.RepIgnoresRepIdParameter | backend/server.py:237-238 | a rep gets the same answer whatever `rep_id` they pass |
| Server.FindById | backend/server.py:253 | `find_one` finds nothing exactly when no stored call has the id; otherwise it returns a stored call with that id |
| Server.FindByIdFirst | backend/server.py:253 | the call found is the first stored call with the id |
| Server.GetCallDetail | backend/server.py:250-263 | 404 exactly when no call has the id; 403 exactly when a rep asks for another rep's call; otherwise the call with that id |
| Server.NonRepSeesAnyCall | backend/server.py:259 | a manager, or anyone else who is not a rep, is shown every stored call |
| Server.RepSeesOnlyOwnCalls | backend/server.py:255-260 | for an existing id, a rep is shown the call exactly when it is theirs, and otherwise refused with 403 |
| Server.RepEntries | backend/server.py:306 | the rep list holds exactly the projections of the users whose role is "rep" |
| Server.RepEntriesOne | backend/server.py:306 | a single user is listed, as its id, username and name, exactly when its role is "rep" |
| Server.RepEntriesConcat | backend/server.py:306 | the listing of two stretches of the user collection is the first's followed by the second's: one entry per stored rep user, in stored order |
| Server.GetReps | backend/server.py:300-310 | 403 exactly for a non-manager; otherwise the listing is exactly RepEntries of the stored users |
| Server.ObjectionsOf | backend/server.py:280-282 | a call adds its `key_objections` list; it adds nothing without an analysis key or without a `key_objections` key; a null in either place raises |
| Server.AllObjectionsFailureSticks | backend/server.py:280-282 | once the extend loop has raised, later calls cannot undo it |
| Server.MissingObjectionsAddNothing | backend/server.py:281 | a call without a `key_objections` list contributes nothing |
| Server.AllObjections | backend/server.py:279-282 | the extend loop raises exactly when some call has a null analysis or a null `key_objections` |
| Server.ObjectionTable | backend/server.py:285-287 | the count table has one entry per distinct objection, in first-seen order, with its number of occurrences |
| Server.GetManagerAnalytics | backend/server.py:265-298 | 403 for a non-manager; 500 when an analysis or its objection list is null; otherwise the call count, the set of rep names and the top five objections, computed by the two loops |
| Server.CommonObjections | backend/server.py:290 | `sorted(...)[:5]` keeps five objections, or every distinct one when there are at most five |
| Server.AnalyticsOf | backend/server.py:292-298 | `total_calls` is the number of calls; `rep_names` holds exactly the calls' rep names and `total_reps` is its size; at most five common objections |
| Server.CommonObjectionsCorrect | backend/server.py:290-296 | at most five distinct objections with their true counts, in non-increasing count order; all of them when there are at most five, otherwise none left out occurs more often than the fifth |
| Server.CommonObjectionsTiesInFirstSeenOrder | backend/server.py:290 | the top five are a prefix of the stable sort, which keeps equal counts in first-seen order |
| Server.TotalRepsMatchesRanking | backend/server.py:275-276 | `total_calls` is the number of calls; `total_reps` is the number of distinct rep names, which equals the number of rows the manager dashboard ranks |
| Server.RepNameSetIsNames | backend/server.py:276 | the set of rep names is the set of the calls' `rep_name` values |
| Server.TokenExpiry | backend/server.py:94-99 | the expiry is now plus the lifetime when the lifetime is truthy (given and non-zero), else now plus 15 minutes |
| Server.LoginTokenLifetime | backend/server.py:173-177 | a login token lives 24 hours by default; a configured 0 minutes falls back to 15 minutes |
| Server.DefaultUsers | backend/server.py:126-151 | the three default users: jane.doe and john.smith (reps), then manager |
| Server.Seeded | backend/server.py:125 | the collection is seeded only when empty, and left as it is otherwise |
| Server.SeedingIsIdempotent | backend/server.py:125-152 | seeding twice is seeding once, whatever the second run draws |
| Server.SeededRepList | backend/server.py:300-310 | on a freshly seeded collection, the manager's rep list is Jane Doe then John Smith |
| Server.UserCollection.InitDefaultUsers | backend/server.py:123-153 | the collection becomes `Seeded` of its old content; three documents are inserted exactly when it was empty, none otherwise |
| Lines.SplitJoined | backend/services/gemini_client.py:127 | joining one-line entries with newlines and splitting again gives the entries back |
| Lines.JoinSplit | backend/services/gemini_client.py:127 | splitting at newlines and joining again gives the text back |
| GeminiClient.ListLines | backend/services/gemini_client.py:123-127 | one "- item" line per item in order, or the single "- None noted" line |
| GeminiClient.FormatList | backend/services/gemini_client.py:125-126 | an empty list formats as exactly "- None noted" |
| GeminiClient.FormatListField | backend/services/gemini_client.py:111 | a missing or null list formats as "- None noted" |
| GeminiClient.FormatListLines | backend/services/gemini_client.py:123-127 | read back line by line, a formatted list of one-line items is exactly its "- item" lines, or "- None noted" |
| GeminiClient.GetOr | backend/services/gemini_client.py:104-108 | a missing member reads as its default; a null reads as "None"; a present value reads as itself |
| GeminiClient.PrepareCallContext | backend/services/gemini_client.py:99-121 | the context exists exactly when the analysis is not null (a missing analysis reads as `{}`) |
| GeminiClient.ContextLayout | backend/services/gemini_client.py:101-120 | read line by line, the context is the template with the defaults "N/A", "No summary available" and "No feedback available", and each list under its heading |
| GeminiClient.RolePhrase | backend/services/gemini_client.py:77 | role "rep" is addressed as "sales representative"; every other role as "sales manager" |
| GeminiClient.Client.constructor | backend/services/gemini_client.py:8-15 | the model is created exactly when the API key is truthy |
| GeminiClient.Client.IsConfigured | backend/services/gemini_client.py:17-19 | the client is configured exactly when the API key is truthy |
| GeminiClient.Client.ChatAboutCall | backend/services/gemini_client.py:21-60 | not configured: the fixed refusal, with no model call; a null analysis: the error text, with no model call; otherwise the model is asked with the context and the question, and its text or error is returned |
| GeminiClient.Client.GeneralSalesChat | backend/services/gemini_client.py:62-97 | not configured: the fixed refusal, with no model call; otherwise the model is asked with the role phrase and the question, and its text or error is returned; a call without a role addresses a sales representative |
| GeminiClient.UnconfiguredNeverAsks | backend/services/gemini_client.py:32-33 | an unconfigured client answers both entry points with the same refusal, whatever the model would say |
| AppRoutes.Route | frontend/src/App.js:22-59 | the spinner on every path while loading; /login, /dashboard (by role), /call/:id and / as the table says; a dashboard or a call is never shown without a user |
| AppRoutes.RedirectsSettle | frontend/src/App.js:33-57 | redirects never loop: within two hops an anonymous user reaches the login page, and a signed-in user reaches their dashboard or the call |
| AppRoutes.DashboardByRole | frontend/src/App.js:43 | exactly the role "manager" gets the manager dashboard; every other role gets the rep dashboard |

## Left out

- HTTP, FastAPI routing, CORS and MongoDB are left out. Collections are sequences in stored order, and a handler returns its body or the status FastAPI would send.
- An uncaught Python exception becomes a 500. Its exact detail text is not modelled.
- Password hashing, JWT encoding and decoding, `get_current_user`, `login` and `/api/auth/me` are not modelled. The user is an input, and a password hash is an opaque string drawn by the caller.
- The webhook that stores call analyses (backend/server.py:199) is not modelled. Only its JSON records appear. The `/chat` and `/chat/history` routes that frontend/src/services/api.js:55-57 requests are not defined in backend/server.py; the chat widget's requests are modelled by their settled responses.
- Dates are integer timestamps: a call date is milliseconds for the front end and the sort key for the backend. Date formatting and parsing, and the backend's `recent_calls` count, are not modelled.
- `create_access_token` is modelled only for its expiry, with times in microseconds.
- The percentage width of the objection bars is display arithmetic on floats and is not modelled.
- `rep_names` is a Python `list(set(...))`, whose order is unspecified. The model returns the set.
- The Blob download of the export, scrolling, the expand toggle of the chat widget, and all JSX are not modelled.
- The rest of frontend/src/services/api.js is not part of this model, nor is its global 401 handling. Neither are Header.js and backend/test_gemini.py.
- The prompt wording around the call context and the Gemini `generate_content` call are not modelled. The model records the prompt's parts, and its reply is an input.
- Async ordering, unmount races and the `Promise.all` fan-out are not modelled.
- ChatBot.ChatWidget.SendMessage runs its two halves back to back. Inside one widget, the history response of Mount may arrive between BeginSend and FinishSend; it replaces the buffer, drops the user's message and breaks the prefix property. That interleaving is not modelled.
- Server.GetCalls sorts with a stable sort, so equal dates stay in stored order. MongoDB leaves that order unspecified.
- Server.GetCalls sorts by the timestamp. The backend sorts the stored `call_date` string (backend/server.py:242), which is not validated. Its string order differs from time order for mixed precision (".5Z" sorts before "Z") or for different offsets.
- Server.GetManagerAnalytics returns `Ok` on the assumption that the date parsing of `recent_calls` (backend/server.py:297) does not raise. In the source, a non-ISO date raises ValueError. A date ending in `Z` or an offset becomes an offset-aware datetime, and comparing it with the naive `datetime.now()` raises TypeError. Either way the endpoint answers 500.
- Server.TokenExpiry adds without bound. In the source, `datetime.utcnow() + expires_delta` raises OverflowError past `datetime.max` (backend/server.py:97), and login then answers 500.
- RepDashboard.ThisWeek subtracts exactly seven days of milliseconds. The source subtracts seven local calendar days (frontend/src/components/RepDashboard.js:84-85), which is an hour more or less across a daylight-saving change.
- Server.GetCalls does not model the stringified `_id` member the handler adds to each record, and neither does Server.GetReps.
- ManagerDashboard.RankingOf lists reps in first-seen order before sorting. `Object.entries` would put integer-like rep names first. `repPerformance` is a plain `{}`, so a rep named like an `Object.prototype` member ("constructor", "toString", "__proto__") finds an inherited value and never gets an own entry; `Object.entries` then drops that rep. The model gives every name its row, so ManagerDashboard.RankingCorrect and ManagerDashboard.RankingCountsAllCalls do not hold for such names in the source.
- AppRoutes.Route takes the location already matched against the four route patterns. Path matching itself is not modelled.
- GeminiClient.ContextLayout only holds when every text member and list item of the call fits on one line. A multi-line value makes the line-by-line reading ambiguous. The context text itself is still defined for every call.
