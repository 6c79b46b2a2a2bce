# Home Assistant helper scripts: a Dafny model

The `skills/home-assistant/scripts` directory holds small command-line
scripts that query a Home Assistant server. Three of them talk to the
WebSocket API:

- `ha_trace_summary.py` aggregates an automation's runs.
- `ha_list_traces.py` lists reshaped traces, newest first.
- `ha_get_trace.py` fetches one run's trace.

Six others read REST endpoints and filter or reshape the JSON they get back:

- entities and automations from `/api/states`;
- similar entities;
- dashboards;
- config entries;
- services.

This project models the deterministic part of each script. The network and
the printing are left out.

- **JSON and Python failures.** Decoded JSON is the datatype `Json.Value`.
  Python truthiness is `Json.Truthy`. `dict.get`, `d[key]` and their failures
  on unexpected shapes are `Lookup`, `Attr` and `Index`. Every exception that
  ends a script with exit status 1 becomes `Fail(Malformed)`: a `KeyError`,
  an `AttributeError`, or a `TypeError` on a value of the wrong shape. The
  script's other exits are `Outcomes.Error` values too: a missing token, a
  rejected greeting, failed authentication, a command error, or "not found".
- **Loops.** A list comprehension or loop whose body may raise is
  `Seqs.Collect`. Lemmas tie it to the reference definitions `Seqs.Filter` and
  `Seqs.Map`, and every filter's contract is stated against those. The
  contract covers three things:
  - when the loop raises;
  - which elements are kept;
  - that the order of the kept elements is preserved.
- **The WebSocket exchange.** The exchange is the explicit phase machine
  `Handshake.Drive`, run over the sequence of messages the server sends:
  auth_required, then auth_ok, then one reply. The messages the client sends
  are part of the outcome. So "no token is sent" and "no command is sent" are
  stated and proved.
- **Run aggregation.** The loop of `calculate_summary` is `TraceSummary.Count`.
  The frequency dicts are multisets: a key's count is its multiplicity.
- **The descending sort.** The sort in `list_traces` is a stable insertion
  sort (`Sorting.SortDesc`) on Python's string order (`Text.StrLt`). It is
  proved to be a permutation, sorted, and stable.
- **Inputs.** The token, the command-line arguments and the decoded server
  replies are parameters.

## Model

| member | source | states |
|---|---|---|
| Handshake.ReceiveAdvances | skills/home-assistant/scripts/ha_get_trace.py:37-74 | Each received message either decides the exchange, after which nothing more is sent, or moves it to the next expected message, having sent the next part of "token, then command". |
| Handshake.Drive | skills/home-assistant/scripts/ha_get_trace.py:36-74 | Messages are read only until the exchange is decided. What is sent is always a prefix of "token, then command". An answered exchange answers with the last awaited message and has sent both. |
| Handshake.Converse | skills/home-assistant/scripts/ha_get_trace.py:29-74 | A missing token fails before anything is sent. A successful exchange needs three messages, answers with the third, and has sent exactly the auth message and then the command. |
| Handshake.Unwrap | skills/home-assistant/scripts/ha_get_trace.py:76-81 | The reply succeeds exactly when it is a dict with a truthy `success`, and then yields its `result`. A failure carries `error.message`. With no error, or an error dict without a message, the message is "Unknown error". An error that is not a dict, or a reply that is not a dict, is a malformed failure. |
| Handshake.UnwrapsEnvelope | skills/home-assistant/scripts/ha_get_trace.py:76-81 | The server's two envelopes round-trip. `{success: true, result: r}` yields r. `{success: false, error: {message: m}}` fails with m. `{success: false}` fails with "Unknown error". |
| Handshake.Reply | skills/home-assistant/scripts/ha_get_trace.py:70-81 | The reply a script acts on: a failed exchange keeps its error; otherwise it is the third message unwrapped, with the script's default for a missing result. |
| Handshake.RejectsUnexpectedGreeting | skills/home-assistant/scripts/ha_get_trace.py:37-42 | A first message whose type is not auth_required fails with that type, and the token is never sent. |
| Handshake.RejectsFailedAuth | skills/home-assistant/scripts/ha_get_trace.py:50-56 | A second message whose type is not auth_ok fails with that message. Only the token was sent; the command never is. A second message that is not a dict is `Malformed`. |
| Handshake.AnswersAfterHandshake | skills/home-assistant/scripts/ha_get_trace.py:36-74 | After auth_required and auth_ok, the third message is the reply. Exactly the token and the command were sent, in that order. |
| Handshake.DriveIgnoresLater | skills/home-assistant/scripts/ha_get_trace.py:36-74 | Once the exchange is decided, extra server messages do not change it. |
| Handshake.ConverseIgnoresLater | skills/home-assistant/scripts/ha_get_trace.py:36-74 | An exchange that did not end on a closed connection has the same outcome whatever the server sends afterwards. |
| AutomationIds.ItemIdOfBareId | skills/home-assistant/scripts/ha_list_traces.py:68 | An id that does not contain "automation." is unchanged by the strip. |
| AutomationIds.ItemIdStripsPrefix | skills/home-assistant/scripts/ha_list_traces.py:68 | "automation." + x becomes x when x does not contain the prefix. |
| TraceSummary.SelectRuns | skills/home-assistant/scripts/ha_trace_summary.py:83-92 | A falsy result is "not found". A truthy result that is not a list, or that holds a trace which is not a dict, raises. The selected runs are the order-preserving subsequence of traces whose item_id equals the stripped id. The selection succeeds exactly when there is at least one; with none it is "not found". |
| TraceSummary.Count | skills/home-assistant/scripts/ha_trace_summary.py:111-136 | The loop completes exactly when every run and its timestamp are dicts and its last step can be a key. The last-step counts total the number of runs. |
| TraceSummary.CountClasses | skills/home-assistant/scripts/ha_trace_summary.py:115-121 | The two counters equal the number of runs classified successful and failed. |
| TraceSummary.CountTimed | skills/home-assistant/scripts/ha_trace_summary.py:123-126 | The runs contributing an execution time are exactly those with both timestamps, in order. A run missing either contributes nothing; it is not counted as zero. |
| TraceSummary.CountErrors | skills/home-assistant/scripts/ha_trace_summary.py:128-132 | Each error value is counted once for every run that carries it truthily. |
| TraceSummary.CountLastSteps | skills/home-assistant/scripts/ha_trace_summary.py:134-136 | Every run's last step is counted once, with "unknown" standing in for a missing one. |
| TraceSummary.CalculateSummary | skills/home-assistant/scripts/ha_trace_summary.py:102-159 | It succeeds exactly when every run can be counted. total_runs is the number of runs. successful_runs and failed_runs are the numbers of runs classified successful and failed, and they total at most total_runs. The rate is "0%" exactly when there are no runs, and successful/total otherwise. The timed runs are those with both timestamps, in order. The last-step counts are the multiset of every run's last step. "No errors" appears exactly when no run has an error; otherwise the error counts are the multiset of the error values of the runs that have one. Any failure is `Malformed`. |
| TraceSummary.ClassesPartition | skills/home-assistant/scripts/ha_trace_summary.py:115-121 | Every run lands in exactly one of succeeded, failed, or neither. |
| TraceSummary.SuccessTakesPrecedence | skills/home-assistant/scripts/ha_trace_summary.py:116-119 | A stopped, finished run is a success even if it carries an error. |
| TraceSummary.UncountedRuns | skills/home-assistant/scripts/ha_trace_summary.py:115-121 | A run is in neither bucket exactly when it is not stopped and has no error. |
| TraceSummary.FailedRuns | skills/home-assistant/scripts/ha_trace_summary.py:118-121 | A run is a failure exactly when it is not a success and it either has an error or is stopped. |
| TraceSummary.UnknownLastSteps | skills/home-assistant/scripts/ha_trace_summary.py:135-136 | Every run without a last_step adds one to the count of "unknown". |
| TraceSummary.GetTraceSummary | skills/home-assistant/scripts/ha_trace_summary.py:28-100 | It sends what the handshake sends for the trace/list command of the stripped id. A failed exchange, a failed reply, or a failed selection fails with that same error. Otherwise the outcome is the summary of the selected runs, which covers at least one run. |
| TraceSummary.SummarizesListedRuns | skills/home-assistant/scripts/ha_trace_summary.py:28-100 | After a successful handshake whose reply lists dict traces, the outcome is the summary of exactly this automation's traces, in order. When no trace belongs to the automation, it is "not found". |
| TraceSummary.SummaryCommand | skills/home-assistant/scripts/ha_trace_summary.py:58-68 | The command has exactly the fields id 1, type trace/list, domain automation and item_id, and item_id is the given id. |
| TraceSummary.TwoRunExample | skills/home-assistant/scripts/ha_trace_summary.py:102-159 | A finished run plus a stopped run with error "x" give one success, one failure, a rate of 1 in 2, {"x": 1}, and {"unknown": 2}. |
| ListTraces.ListCommand | skills/home-assistant/scripts/ha_list_traces.py:60-69 | The command always has id 1, type trace/list and domain automation. It has an item_id (the stripped id) exactly when an automation is named. |
| ListTraces.LabelRoundTrip | skills/home-assistant/scripts/ha_list_traces.py:94-96 | A trace listed for "automation.x" or for the bare "x" is labelled "automation.x". A missing or empty item id is labelled "unknown". |
| ListTraces.FormatAndSort | skills/home-assistant/scripts/ha_list_traces.py:92-106 | The corrected listing (see Findings), where a missing start sorts as "". It fails exactly when some trace or its timestamp is not a dict. Otherwise it gives one record per input trace. The records are a permutation of the formatted traces, non-increasing by start timestamp, with equal timestamps in input order. Any failure is `Malformed`. |
| ListTraces.ListTraces | skills/home-assistant/scripts/ha_list_traces.py:28-108 | list_traces with the corrected sort. It sends what the handshake sends for the trace/list command, and a failed exchange fails with the same error. A reply with a falsy success fails with its error message, or "Unknown error". After a successful reply, a falsy result is Ok with the empty list, never an error. A truthy result that is not a list raises. Otherwise the outcome is the corrected listing of its items. |
| ListTraces.ListTracesAsWritten | skills/home-assistant/scripts/ha_list_traces.py:28-108 | list_traces as written. It sends the same messages as the corrected version. Failed exchanges and failed replies fail with their own error. A falsy result is Ok with the empty list. A truthy list gives the as-written listing of its items, and whenever it succeeds that listing equals the corrected one. |
| ListTraces.ListsReplyResult | skills/home-assistant/scripts/ha_list_traces.py:72-106 | After a successful handshake whose reply wraps a non-empty list of traces, each version's outcome is its listing of exactly that list. |
| ListTraces.FormatAndSortAsWritten | skills/home-assistant/scripts/ha_list_traces.py:92-106 | The listing as written. When the formatting loop raises, it fails the same way. Otherwise it fails exactly when there are two or more traces and one of them has no string start. Whenever it succeeds, it agrees with the corrected listing. |
| ListTraces.UndatedSurvivesSort | skills/home-assistant/scripts/ha_list_traces.py:98-106 | The sorted records include one without a string start exactly when the input traces do. |
| ListTraces.MissingStartBreaksListing | skills/home-assistant/scripts/ha_list_traces.py:98-106 | Two traces, one without a start: the code as written fails, and the corrected listing puts the dated trace first. |
| ListTraces.AsWrittenAgreesOnDatedTraces | skills/home-assistant/scripts/ha_list_traces.py:106 | When every start is a string, the code as written and the corrected listing agree. |
| ListTraces.ListingWithUndatedTrace | skills/home-assistant/scripts/ha_list_traces.py:72-106 | The Findings input as a whole exchange: the script as written fails with a malformed result, and the corrected script lists both traces. |
| Sorting.SortPermutes | skills/home-assistant/scripts/ha_list_traces.py:106 | Sorting keeps exactly the same elements. |
| Sorting.SortSorted | skills/home-assistant/scripts/ha_list_traces.py:106 | The sorted sequence is non-increasing by key. |
| Sorting.SortStable | skills/home-assistant/scripts/ha_list_traces.py:106 | Elements with equal keys keep their relative order. |
| GetTrace.GetCommand | skills/home-assistant/scripts/ha_get_trace.py:58-68 | The command has exactly the fields id 1, type trace/get, domain automation, item_id and run_id. run_id is the given run. item_id is the given id with every "automation." removed. |
| GetTrace.GetCommandNamesItem | skills/home-assistant/scripts/ha_get_trace.py:59-66 | "automation.x" and the bare "x" both produce the item_id x. |
| GetTrace.GetTrace | skills/home-assistant/scripts/ha_get_trace.py:27-87 | It sends what the handshake sends for the trace/get command. A failed exchange fails with the same error. A reply with a falsy success fails with its error message, or "Unknown error". It succeeds exactly when the handshake succeeds, the reply has a truthy success, and the result is truthy. A success returns the result unchanged; a falsy result is "not found". |
| GetTrace.SurfacesServerMessage | skills/home-assistant/scripts/ha_get_trace.py:76-79 | A command rejected with message "boom" fails with exactly "boom", after the token and the command were sent. |
| GetTrace.GreetingChecked | skills/home-assistant/scripts/ha_get_trace.py:40-42 | A wrong greeting fails the script before anything is sent. |
| Entities.GetEntities | skills/home-assistant/scripts/ha_get_entities.py:42-45 | Without a domain, the list comes back unchanged. With one, an entity is kept exactly when its id starts with domain + ".". The result preserves order and leaves entities unmodified. The filter raises exactly when some entity has no string entity_id. Any failure is `Malformed`. |
| Entities.DomainNeedsDot | skills/home-assistant/scripts/ha_get_entities.py:43 | "light" selects "light.kitchen" but not "lights.kitchen". |
| Entities.GetEntitiesIdempotent | skills/home-assistant/scripts/ha_get_entities.py:42-45 | Filtering by the same domain twice is the same as filtering once. |
| Automations.GetAutomations | skills/home-assistant/scripts/ha_get_automations.py:42-54 | Every result is an automation entity, in input order. Without a term, all automations are returned. With a term, an automation is kept exactly when the lowercased term is in its lowercased id or friendly name. The friendly name is consulted, and may raise, only when the id does not match. Any failure is `Malformed`. |
| Automations.SearchIsOneFilter | skills/home-assistant/scripts/ha_get_automations.py:42-54 | A successful search keeps, in input order, exactly the entities that are automations and mention the lowercased term: the two filters compose into one. |
| Automations.SearchIgnoresCase | skills/home-assistant/scripts/ha_get_automations.py:46-52 | Terms differing only in ASCII case find the same automations. In particular, a term finds what its lowercase form finds. |
| SimilarEntities.SearchEntities | skills/home-assistant/scripts/ha_search_similar_entities.py:43-59 | The output is one record per matching entity, in input order. An entity matches when the lowercased pattern is in its lowercased id or friendly name, where a missing friendly name is "". Each record's domain is the id before its first dot. It raises exactly when an entity lacks a string id or friendly name, or a match lacks a state. Any failure is `Malformed`. |
| SimilarEntities.RecordsMatch | skills/home-assistant/scripts/ha_search_similar_entities.py:50-55 | Every record names an entity whose lowercased id or friendly name contains the lowercased pattern, and its domain is the id up to its first dot. |
| SimilarEntities.EmptyPatternMatchesAll | skills/home-assistant/scripts/ha_search_similar_entities.py:50 | The empty pattern returns a record for every entity. |
| SimilarEntities.DomainExamples | skills/home-assistant/scripts/ha_search_similar_entities.py:55 | "light.kitchen" has domain "light"; "sun", which has no dot, has domain "sun". |
| SimilarEntities.ProjectExample | skills/home-assistant/scripts/ha_search_similar_entities.py:51-57 | Id and state are copied as given, and missing attributes become {}. |
| Dashboards.GetDashboards | skills/home-assistant/scripts/ha_search_dashboards.py:47-65 | Without a pattern, the list comes back unchanged. With one, the result is the order-preserving subsequence of dashboards whose lowercased id, title or url_path contains the lowercased pattern, where a missing field is "". It raises exactly when one of those fields is not a string. Any failure is `Malformed`. |
| Dashboards.SearchIgnoresCase | skills/home-assistant/scripts/ha_search_dashboards.py:49-56 | Patterns differing only in ASCII case find the same dashboards. In particular, a pattern finds what its lowercase form finds. |
| Dashboards.Present | skills/home-assistant/scripts/ha_search_dashboards.py:99-123 | No match is "not found". Exactly one match is shown alone, and its configuration is fetched exactly when its url_path is truthy. Two or more matches are listed unchanged. A single match that is not a dict is `Malformed`. |
| Dashboards.SearchDashboards | skills/home-assistant/scripts/ha_search_dashboards.py:93-123 | A failed search fails with the same error. Otherwise the outcome is the presentation of the search result: "not found", one dashboard, or the listed dashboards. Without a pattern, all dashboards are presented. |
| Dashboards.NoMatchIsNotFound | skills/home-assistant/scripts/ha_search_dashboards.py:99-104 | A pattern that matches nothing ends in "not found". |
| ConfigEntries.GetConfigEntries | skills/home-assistant/scripts/ha_get_config_entries.py:46-68 | With a filter, an entry is kept exactly when its domain equals the filter; without one, all entries are kept. An empty selection is a normal empty report. Otherwise there is one record per kept entry, in order. It raises when an entry is not a dict under a filter, or a kept entry lacks entry_id or domain. Any failure is `Malformed`. |
| ConfigEntries.DefaultsFillGaps | skills/home-assistant/scripts/ha_get_config_entries.py:62-68 | An entry with only entry_id and domain gets title "Unknown", state "unknown" and source "unknown". |
| ConfigEntries.UnknownDomainIsEmpty | skills/home-assistant/scripts/ha_get_config_entries.py:46-57 | A domain no entry has gives the empty report, not an error. |
| Services.ServicesDict | skills/home-assistant/scripts/ha_get_services.py:43 | The conversion succeeds exactly when every item is a dict with a hashable domain and a services field. |
| Services.ServicesDictKeys | skills/home-assistant/scripts/ha_get_services.py:43 | The map's keys are exactly the domains listed. |
| Services.ServicesDictLastWins | skills/home-assistant/scripts/ha_get_services.py:43 | A domain listed more than once maps to the services of its last occurrence. |
| Services.ServicesDictLastWinsAll | skills/home-assistant/scripts/ha_get_services.py:43 | Every listed domain maps to the services of its last occurrence. |
| Services.SelectDomain | skills/home-assistant/scripts/ha_get_services.py:45-51 | Without a domain, the whole map is returned. With one, the map is restricted to that single key, and the values are unchanged. |
| Services.GetServices | skills/home-assistant/scripts/ha_get_services.py:43-51 | It fails exactly when an item is malformed. Without a filter, the keys are all the listed domains. With a filter, they are the listed domains equal to it, so at most that one. Every key maps to the services of the last item with that domain. Any failure is `Malformed`. |
| Services.RequestedDomain | skills/home-assistant/scripts/ha_get_services.py:45-47 | A requested domain that is listed gives the singleton map of its last services. |
| Services.AbsentDomain | skills/home-assistant/scripts/ha_get_services.py:48-49 | A requested domain that is not listed gives the empty map. |
| Services.LaterEntryWins | skills/home-assistant/scripts/ha_get_services.py:43 | Two entries for "light" leave only the second one's services. |

## Left out

- ha_call_service.py, ha_get_state.py and ha_get_config.py are not part of this model. Each is a single HTTP request plus printing.
- Network I/O is not modelled: HTTP requests, the WebSocket connection, asyncio, and HTTP status errors. The server's replies are parameters. A connection that closes early is `TransportError`.
- Environment lookup, argument parsing, usage messages and stderr printing are not modelled. The token and the arguments are parameters, and exits are `Outcomes.Error` values.
- JSON encoding and decoding are not modelled; decoded values are parameters. JSON numbers are integers only.
- The ISO-8601 parsing, the float durations, the average/min/max and the `:.1f`/`:.2f` rendering in ha_trace_summary.py are not modelled. `success_rate` is the pair (successful, total).
- TraceSummary.CountTimed models the presence check of calculate_execution_time (both timestamps truthy). A run that passes it but whose timestamps fail to parse gives no duration in the script; this is not modelled.
- `str.lower` is modelled on ASCII letters only; Unicode case folding is not modelled.
- Error keys that are not strings are rendered with `str()` in ha_trace_summary.py. The model counts the values themselves, so two distinct values with the same rendering are counted separately.
- Python's `True == 1` is not modelled, so dict keys `true` and `1` stay distinct in `Services.ServicesDict` and in the frequency multisets.
- ListTraces.LabelText renders only string item ids; the f-string rendering of other item ids is not modelled.
- The REST replies are assumed to be JSON lists, as the endpoints document; iterating over a decoded dict is not modelled.
- The dashboard configuration fetch is I/O; `Dashboards.Present` returns the url_path that would be fetched.
- ListTraces.ListTraces: composes the corrected sort `FormatAndSort`, so on the Findings input it returns the listing where the script exits 1. The script as written is `ListTraces.ListTracesAsWritten`, which fails on that input and otherwise agrees.
- ListTraces.FormatAndSortAsWritten models the TypeError only for non-string start keys among two or more traces, and treats every non-string start alike. Integer starts, which Python can compare with each other, are also treated as failures.

## Findings

| source | as written | input that shows it | evidently intended | confidence | as-written member | corrected member |
|---|---|---|---|---|---|---|
| skills/home-assistant/scripts/ha_list_traces.py:98-106 | The sort key `x.get("timestamp", "")` never uses its default. Every formatted record has a "timestamp" key, which is None when the trace has no start. With two or more traces, comparing None with a string raises TypeError, and the whole listing exits 1. | Two traces from the same automation, one with `timestamp.start` "2024-01-01T00:00:00Z" and one with no timestamp. | A missing start sorts as "" (last in descending order), and the listing succeeds. | not executed | ListTraces.FormatAndSortAsWritten | ListTraces.FormatAndSort |
