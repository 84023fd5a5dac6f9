# abp-next-admin core, modelled in Dafny

This project models three small parts of the abp-next-admin modules and proves properties about them. The models are written in Dafny 4.11.

- **Background jobs** (`background_jobs.dfy`, module `BackgroundJobs`) covers the handler that runs after every job execution. The handler looks the job up in the job store. It counts the trigger and copies the run times and the result. A one-shot job is marked completed. A failed execution is retried, or abandoned and removed from the scheduler once the try count passes the retry budget. A job past a positive run budget is completed and removed. The record is then written back.
  - The store and the job record are classes whose fields the handler changes.
  - The removal calls on the scheduler and the write on the store go into one shared call log, in the order they are made. The store lookup is not logged.
  - The handler is proved against a decision-table statement of the transition (`Executed`) and of the removal requests (`Removals`). The contract fixes the order of the calls: every removal comes before the single write.
  - Lemmas cover single cases and sequences of executions.
- **Tencent location client** (`tencent_location.dfy`, module `TencentLocation`) covers the client of the Tencent map web service:
  - the request URL builder, whose loop is proved against a reference join;
  - the parameter lists of the IP-geocode, geocode and reverse-geocode requests, including the optional `region` and `sig` parameters;
  - the projection of points of interest (POIs);
  - the nearest-POI address fallback on the reverse-geocode result;
  - the success check of a response.
- **Elasticsearch audit-log manager** (`audit_log_query.dfy`, module `AuditLogQuery`) covers:
  - how a sorting string becomes a sort order and a field;
  - how a property name is mapped to an index field through the case-insensitive field map;
  - which `must` clauses a set of optional filters produces, and in which order. Clauses are tags naming what each tests;
  - how saving an audit log hides errors.
- `common.dfy` (module `Common`) holds `Option`, `Result` and the .NET string helpers that all three use.

Some behaviour of the handler is worth stating on its own, because it is not what a reader might expect:
- A failing one-shot job ends `Running`, not `Completed`. The failure block overrides the one-shot block. This goes against the source's own comment at JobExecutedEvent.cs:21, which says a one-shot task is marked completed after one run.
- A successful one-shot job without a run budget is completed but never removed from the scheduler.
- The scheduler can be asked to remove the same job twice in one execution: once when it is abandoned and once when the run budget is passed.
- There is no check that the stored record's key matches the event's key. The store is looked up by the event's key.
- The removal calls (JobExecutedEvent.cs:39 and :48) are made before the record is written back (:51), so the scheduler sees the job's final status before the store holds it.

## Model

| member | source | states |
|---|---|---|
| BackgroundJobs.Executed | aspnet-core/modules/task-management/LINGYUN.Abp.BackgroundTasks/LINGYUN/Abp/BackgroundTasks/Internal/JobExecutedEvent.cs:16-49 | The record after one execution. Key, type and budgets are unchanged. The trigger count goes up by one and the run times come from the event. On success the try count and the abandoned flag are kept, the event's result is copied, and a one-shot job is `Completed`. On failure the try count goes up by one and the result is the exception message. The job is `Running`, or `Stopped` and abandoned past the retry budget. The count limit overrides the status with `Completed`. |
| BackgroundJobs.Removals | aspnet-core/modules/task-management/LINGYUN.Abp.BackgroundTasks/LINGYUN/Abp/BackgroundTasks/Internal/JobExecutedEvent.cs:34-49 | The removal requests of one execution, in order. The stopped abandoned record comes first, then the completed record that hit the count limit. There are none exactly when neither condition holds, two exactly when both hold, and all carry the job's key. |
| BackgroundJobs.FailingOnceJobKeepsRunning | aspnet-core/modules/task-management/LINGYUN.Abp.BackgroundTasks/LINGYUN/Abp/BackgroundTasks/Internal/JobExecutedEvent.cs:22-32 | A one-shot job that fails within its retry budget and has no run budget ends `Running` and is not removed. |
| BackgroundJobs.SucceedingOnceJobCompletesWithoutRemoval | aspnet-core/modules/task-management/LINGYUN.Abp.BackgroundTasks/LINGYUN/Abp/BackgroundTasks/Internal/JobExecutedEvent.cs:22-49 | A one-shot job that succeeds and has no run budget ends `Completed` and is not removed. |
| BackgroundJobs.ReplayCounts | aspnet-core/modules/task-management/LINGYUN.Abp.BackgroundTasks/LINGYUN/Abp/BackgroundTasks/Internal/JobExecutedEvent.cs:16-30 | After any sequence of executions, the trigger count has grown by their number and the try count by the number of failures; nothing resets it. Key, type and budgets stay unchanged. |
| BackgroundJobs.RepeatedFailures | aspnet-core/modules/task-management/LINGYUN.Abp.BackgroundTasks/LINGYUN/Abp/BackgroundTasks/Internal/JobExecutedEvent.cs:28-40 | A recurring job without a run budget that keeps failing has try count equal to the number of failures. After any failure, whatever status the job started in (`Ready` included), it is `Running` within the retry budget. It is `Stopped` and abandoned exactly at the failure that exceeds the budget. |
| BackgroundJobs.CountLimitReachedOnCall | aspnet-core/modules/task-management/LINGYUN.Abp.BackgroundTasks/LINGYUN/Abp/BackgroundTasks/Internal/JobExecutedEvent.cs:44-49 | With a run budget of `maxCount` and a fresh trigger count, execution `k + 1` reaches the limit exactly when `k + 1 > maxCount`. That execution then completes the job and requests its removal. |
| BackgroundJobs.JobInfo.constructor | aspnet-core/modules/task-management/LINGYUN.Abp.BackgroundTasks/LINGYUN/Abp/BackgroundTasks/Internal/JobExecutedEvent.cs:13 | The job object the store hands out holds exactly the stored record's fields. |
| BackgroundJobs.JobStore.Find | aspnet-core/modules/task-management/LINGYUN.Abp.BackgroundTasks/LINGYUN/Abp/BackgroundTasks/Internal/JobExecutedEvent.cs:13-14 | Null exactly for an unknown key; otherwise a fresh object holding the stored record. |
| BackgroundJobs.JobStore.Store | aspnet-core/modules/task-management/LINGYUN.Abp.BackgroundTasks/LINGYUN/Abp/BackgroundTasks/Internal/JobExecutedEvent.cs:51 | The record is filed under its key, and one write call for it is appended to the call log. Every record stays filed under its own key. |
| BackgroundJobs.JobScheduler.Remove | aspnet-core/modules/task-management/LINGYUN.Abp.BackgroundTasks/LINGYUN/Abp/BackgroundTasks/Internal/JobExecutedEvent.cs:58 | One removal call for the job, as it is at the call, is appended to the call log. |
| BackgroundJobs.RemoveJob | aspnet-core/modules/task-management/LINGYUN.Abp.BackgroundTasks/LINGYUN/Abp/BackgroundTasks/Internal/JobExecutedEvent.cs:55-59 | Exactly one removal request, for the job as it is at the call. |
| BackgroundJobs.RecordExecution | aspnet-core/modules/task-management/LINGYUN.Abp.BackgroundTasks/LINGYUN/Abp/BackgroundTasks/Internal/JobExecutedEvent.cs:16-25 | The object's new fields are the bookkeeping step applied to its old fields. |
| BackgroundJobs.HandleFailure | aspnet-core/modules/task-management/LINGYUN.Abp.BackgroundTasks/LINGYUN/Abp/BackgroundTasks/Internal/JobExecutedEvent.cs:28-41 | The object's new fields are the failure step applied to its old fields. One removal call for the abandoned record is logged exactly when the retry budget is exceeded. |
| BackgroundJobs.HandleCountLimit | aspnet-core/modules/task-management/LINGYUN.Abp.BackgroundTasks/LINGYUN/Abp/BackgroundTasks/Internal/JobExecutedEvent.cs:44-49 | Past a positive run budget the object becomes `Completed` and one removal call for it is logged; otherwise nothing changes. |
| BackgroundJobs.RemovalCalls | aspnet-core/modules/task-management/LINGYUN.Abp.BackgroundTasks/LINGYUN/Abp/BackgroundTasks/Internal/JobExecutedEvent.cs:39-48 | One removal call per record, in the records' order. |
| BackgroundJobs.BlocksComposeToTransition | aspnet-core/modules/task-management/LINGYUN.Abp.BackgroundTasks/LINGYUN/Abp/BackgroundTasks/Internal/JobExecutedEvent.cs:16-49 | The three blocks of overriding assignments, run in order, give exactly `Executed` and `Removals`. |
| BackgroundJobs.OnJobAfterExecuted | aspnet-core/modules/task-management/LINGYUN.Abp.BackgroundTasks/LINGYUN/Abp/BackgroundTasks/Internal/JobExecutedEvent.cs:9-53 | For an unknown key nothing is written and nothing is removed. For a known key the store holds `Executed` of the old record under that key. The call log gains exactly the removal calls of `Removals`, in order, followed by one write of `Executed`, so every removal precedes the write. The store stays keyed by record key. |
| TencentLocation.TerminatedIsJoinPlusSeparator | aspnet-core/modules/common/LINGYUN.Abp.Location.Tencent/LINGYUN/Abp/Location/Tencent/TencentLocationHttpClient.cs:218-222 | For a non-empty parameter list, writing every `key=value&` gives the `&`-joined entries plus one trailing `&`. |
| TencentLocation.BuildRequestUrl | aspnet-core/modules/common/LINGYUN.Abp.Location.Tencent/LINGYUN/Abp/Location/Tencent/TencentLocationHttpClient.cs:213-225 | The URL always starts with base address and path. With no parameters, the trailing-character removal leaves exactly base address and path (the `?` is what is removed). Otherwise the URL is base, path, `?` and the `&`-joined `key=value` entries, with no trailing separator and null values written as empty. |
| TencentLocation.AddSignature | aspnet-core/modules/common/LINGYUN.Abp.Location.Tencent/LINGYUN/Abp/Location/Tencent/TencentLocationHttpClient.cs:94-98 | When the secret key is not blank, a `sig` parameter is appended, computed over the parameters before it; otherwise the list is unchanged. All earlier parameters are kept and no other key appears. Distinct keys stay distinct. |
| TencentLocation.IPGeocodeParameters | aspnet-core/modules/common/LINGYUN.Abp.Location.Tencent/LINGYUN/Abp/Location/Tencent/TencentLocationHttpClient.cs:46-58 | `callback`, `ip`, `key` and `output`, in that order, then `sig` exactly when the secret key is not blank, signed over those four on the IP-location path. No key occurs twice. |
| TencentLocation.GeocodeParameters | aspnet-core/modules/common/LINGYUN.Abp.Location.Tencent/LINGYUN/Abp/Location/Tencent/TencentLocationHttpClient.cs:80-98 | `address`, `callback`, `key` and `output`. Then `region` exactly when the city is not blank (the city defaults to null). Then `sig` exactly when the secret key is not blank, signed over everything before it on the geocoder path. No key occurs twice. |
| TencentLocation.ReGeocodeParameters | aspnet-core/modules/common/LINGYUN.Abp.Location.Tencent/LINGYUN/Abp/Location/Tencent/TencentLocationHttpClient.cs:112-128 | `callback`, `get_poi`, `key`, `location`, `output`, and `poi_options` as `radius=<radius>` (the radius defaults to 1000), then `sig` exactly when the secret key is not blank, signed over those six. No key occurs twice. |
| TencentLocation.IPGeocodeRequestUrl | aspnet-core/modules/common/LINGYUN.Abp.Location.Tencent/LINGYUN/Abp/Location/Tencent/TencentLocationHttpClient.cs:53-59 | The IP-geocode request goes to `https://apis.map.qq.com/ws/location/v1/ip`, `?`, and its parameters joined. They are exactly `callback`, `ip`, `key` and `output`, followed by `sig` (signed over those four on the IP-location path) exactly when the secret key is not blank. Keys are distinct. |
| TencentLocation.GeocodeRequestUrl | aspnet-core/modules/common/LINGYUN.Abp.Location.Tencent/LINGYUN/Abp/Location/Tencent/TencentLocationHttpClient.cs:80-99 | The geocode request goes to the geocoder path of the web service with its parameters joined. They are exactly `address`, `callback`, `key` and `output`, then `region` (the city) exactly when the city is not blank, then `sig` signed over all earlier entries exactly when the secret key is not blank. Keys are distinct. The city defaults to null. |
| TencentLocation.ReGeocodeRequestUrl | aspnet-core/modules/common/LINGYUN.Abp.Location.Tencent/LINGYUN/Abp/Location/Tencent/TencentLocationHttpClient.cs:112-129 | The reverse-geocode request goes to the geocoder path with its parameters joined. They are exactly `callback`, `get_poi`, `key`, `location` (the location text), `output` and `poi_options` (`radius=<radius>`), then `sig` signed over those six exactly when the secret key is not blank. Keys are distinct. The radius defaults to 1000. |
| TencentLocation.MapPois | aspnet-core/modules/common/LINGYUN.Abp.Location.Tencent/LINGYUN/Abp/Location/Tencent/TencentLocationHttpClient.cs:142-154 | One POI per response POI, in order. Address is kept; title becomes name, id becomes tag, category becomes type; distance is kept. |
| TencentLocation.NearestIndex | aspnet-core/modules/common/LINGYUN.Abp.Location.Tencent/LINGYUN/Abp/Location/Tencent/TencentLocationHttpClient.cs:160 | A position of minimum distance, with every earlier POI strictly farther: the first element of a stable sort by distance. |
| TencentLocation.NearestPoi | aspnet-core/modules/common/LINGYUN.Abp.Location.Tencent/LINGYUN/Abp/Location/Tencent/TencentLocationHttpClient.cs:160 | None exactly for an empty list; otherwise the first POI of minimum distance. |
| TencentLocation.ReGeocodeLocation.constructor | aspnet-core/modules/common/LINGYUN.Abp.Location.Tencent/LINGYUN/Abp/Location/Tencent/TencentLocationHttpClient.cs:130-155 | The result holds the response's address, its formatted address and the projected POIs. |
| TencentLocation.ReGeocodeLocation.ApplyNearestPoiFallback | aspnet-core/modules/common/LINGYUN.Abp.Location.Tencent/LINGYUN/Abp/Location/Tencent/TencentLocationHttpClient.cs:156-166 | If the address or the formatted address is blank and there are POIs, the address becomes the nearest POI's address and the formatted address its name. Otherwise both are unchanged. The POIs are never changed. |
| TencentLocation.CheckResponse | aspnet-core/modules/common/LINGYUN.Abp.Location.Tencent/LINGYUN/Abp/Location/Tencent/TencentLocationHttpClient.cs:198-210 | A response passes unchanged exactly when it reports success. A failure is the user-friendly error exactly when errors are visible to the client. Otherwise it is the error `Resolution address failed:<message>!`. |
| AuditLogQuery.FirstToken | aspnet-core/modules/auditing/LINGYUN.Abp.AuditLogging.Elasticsearch/LINGYUN/Abp/AuditLogging/Elasticsearch/ElasticsearchAuditLogManager.cs:113-115 | The first piece of a white-space split: a prefix of the string with no white space in it, followed by white space unless it is the whole string. |
| AuditLogQuery.ParseSortOrder | aspnet-core/modules/auditing/LINGYUN.Abp.AuditLogging.Elasticsearch/LINGYUN/Abp/AuditLogging/Elasticsearch/ElasticsearchAuditLogManager.cs:111-112 | Ascending exactly when the sorting string is not blank and ends with `asc` ignoring case; descending otherwise. |
| AuditLogQuery.ParseSortField | aspnet-core/modules/auditing/LINGYUN.Abp.AuditLogging.Elasticsearch/LINGYUN/Abp/AuditLogging/Elasticsearch/ElasticsearchAuditLogManager.cs:113-115 | `ExecutionTime` for a blank sorting string; otherwise its first white-space-separated piece. |
| AuditLogQuery.FirstTokenOfWord | aspnet-core/modules/auditing/LINGYUN.Abp.AuditLogging.Elasticsearch/LINGYUN/Abp/AuditLogging/Elasticsearch/ElasticsearchAuditLogManager.cs:114 | A word without white space, followed by white space and anything, splits off as that word. |
| AuditLogQuery.SortingOfFieldAndDirection | aspnet-core/modules/auditing/LINGYUN.Abp.AuditLogging.Elasticsearch/LINGYUN/Abp/AuditLogging/Elasticsearch/ElasticsearchAuditLogManager.cs:111-115 | `"<field> asc"` sorts ascending on `<field>`, `"<field> desc"` descending on `<field>`, and null sorts descending on `ExecutionTime`. |
| AuditLogQuery.FindKey | aspnet-core/modules/auditing/LINGYUN.Abp.AuditLogging.Elasticsearch/LINGYUN/Abp/AuditLogging/Elasticsearch/ElasticsearchAuditLogManager.cs:354 | The first position of a key equal to the name ignoring case, or the end when no key matches. |
| AuditLogQuery.FieldMapKeysDistinct | aspnet-core/modules/auditing/LINGYUN.Abp.AuditLogging.Elasticsearch/LINGYUN/Abp/AuditLogging/Elasticsearch/ElasticsearchAuditLogManager.cs:331-351 | No two keys of the 18-entry field map are equal ignoring case, so the case-insensitive dictionary is well formed and a lookup has at most one match. |
| AuditLogQuery.MapFieldName | aspnet-core/modules/auditing/LINGYUN.Abp.AuditLogging.Elasticsearch/LINGYUN/Abp/AuditLogging/Elasticsearch/ElasticsearchAuditLogManager.cs:352-360 | A name equal ignoring case to a field-map key maps to that key's value. A name matching no key maps to itself. |
| AuditLogQuery.MapFieldNameExamples | aspnet-core/modules/auditing/LINGYUN.Abp.AuditLogging.Elasticsearch/LINGYUN/Abp/AuditLogging/Elasticsearch/ElasticsearchAuditLogManager.cs:331-360 | `username` maps to `UserName.keyword`, `EXECUTIONTIME` to `ExecutionTime`, and the unmapped `Exceptions` to itself. |
| AuditLogQuery.ClauseIndexField | aspnet-core/modules/auditing/LINGYUN.Abp.AuditLogging.Elasticsearch/LINGYUN/Abp/AuditLogging/Elasticsearch/ElasticsearchAuditLogManager.cs:243-321 | Each clause's field, mapped as `GetField` maps it. The string term clauses and the URL match run on the `.keyword` sub-field of their property. The time, duration and status-code clauses run on the property itself. The exception clauses name no mapped field. |
| AuditLogQuery.KeywordClauseField | aspnet-core/modules/auditing/LINGYUN.Abp.AuditLogging.Elasticsearch/LINGYUN/Abp/AuditLogging/Elasticsearch/ElasticsearchAuditLogManager.cs:251-282 | The HTTP method, URL, user id, user name, application name, correlation id, client id and client IP address clauses map to their `.keyword` sub-field. |
| AuditLogQuery.PlainClauseField | aspnet-core/modules/auditing/LINGYUN.Abp.AuditLogging.Elasticsearch/LINGYUN/Abp/AuditLogging/Elasticsearch/ElasticsearchAuditLogManager.cs:243-290 | The execution time, execution duration and HTTP status code clauses map to the property itself. |
| AuditLogQuery.GetField | aspnet-core/modules/auditing/LINGYUN.Abp.AuditLogging.Elasticsearch/LINGYUN/Abp/AuditLogging/Elasticsearch/ElasticsearchAuditLogManager.cs:352-360 | The mapped name, converted to camel case when the option is set and to Pascal case otherwise. |
| AuditLogQuery.SortOf | aspnet-core/modules/auditing/LINGYUN.Abp.AuditLogging.Elasticsearch/LINGYUN/Abp/AuditLogging/Elasticsearch/ElasticsearchAuditLogManager.cs:111-152 | The search is sorted in the parsed order on the parsed field, passed through the field mapping. |
| AuditLogQuery.ClausesBelowExact | aspnet-core/modules/auditing/LINGYUN.Abp.AuditLogging.Elasticsearch/LINGYUN/Abp/AuditLogging/Elasticsearch/ElasticsearchAuditLogManager.cs:243-321 | The clauses of the first `n` filter parameters are exactly the supplied ones, each once, in parameter order. |
| AuditLogQuery.ClausesBelowSound | aspnet-core/modules/auditing/LINGYUN.Abp.AuditLogging.Elasticsearch/LINGYUN/Abp/AuditLogging/Elasticsearch/ElasticsearchAuditLogManager.cs:243-321 | Each clause of the first `n` filter parameters is the one its own parameter asks for, and that parameter is among the first `n`. |
| AuditLogQuery.ClausesBelowOrdered | aspnet-core/modules/auditing/LINGYUN.Abp.AuditLogging.Elasticsearch/LINGYUN/Abp/AuditLogging/Elasticsearch/ElasticsearchAuditLogManager.cs:243-321 | The clauses of the first `n` filter parameters are in strictly increasing parameter order. |
| AuditLogQuery.ClausesBelowComplete | aspnet-core/modules/auditing/LINGYUN.Abp.AuditLogging.Elasticsearch/LINGYUN/Abp/AuditLogging/Elasticsearch/ElasticsearchAuditLogManager.cs:243-321 | Every supplied filter among the first `n` parameters has its clause in the list. |
| AuditLogQuery.BuildQueryDescriptor | aspnet-core/modules/auditing/LINGYUN.Abp.AuditLogging.Elasticsearch/LINGYUN/Abp/AuditLogging/Elasticsearch/ElasticsearchAuditLogManager.cs:225-324 | Every clause is the one its filter parameter asks for. Clauses are in strictly increasing parameter order. Every supplied filter has its clause: a string filter when not blank, the others when present, and the exception filter as "exists" or "must not exist" by its value. No filters give no clauses. |
| AuditLogQuery.AddExecutionTimeRange | aspnet-core/modules/auditing/LINGYUN.Abp.AuditLogging.Elasticsearch/LINGYUN/Abp/AuditLogging/Elasticsearch/ElasticsearchAuditLogManager.cs:243-250 | Extends the clause list from the empty one to the clauses of the start and end time. |
| AuditLogQuery.AddRequestTerms | aspnet-core/modules/auditing/LINGYUN.Abp.AuditLogging.Elasticsearch/LINGYUN/Abp/AuditLogging/Elasticsearch/ElasticsearchAuditLogManager.cs:251-266 | Extends the clause list with those of HTTP method, URL, user id and user name, in that order. |
| AuditLogQuery.AddClientTerms | aspnet-core/modules/auditing/LINGYUN.Abp.AuditLogging.Elasticsearch/LINGYUN/Abp/AuditLogging/Elasticsearch/ElasticsearchAuditLogManager.cs:267-282 | Extends the clause list with those of application name, correlation id, client id and client IP address, in that order. |
| AuditLogQuery.AddExecutionDurationRange | aspnet-core/modules/auditing/LINGYUN.Abp.AuditLogging.Elasticsearch/LINGYUN/Abp/AuditLogging/Elasticsearch/ElasticsearchAuditLogManager.cs:283-290 | Extends the clause list with those of the maximum and minimum execution duration. |
| AuditLogQuery.AddOutcomeFilters | aspnet-core/modules/auditing/LINGYUN.Abp.AuditLogging.Elasticsearch/LINGYUN/Abp/AuditLogging/Elasticsearch/ElasticsearchAuditLogManager.cs:293-321 | Extends the clause list with the exception clause and the HTTP status code clause, completing it. |
| AuditLogQuery.SomeFilterBehindEveryClause | aspnet-core/modules/auditing/LINGYUN.Abp.AuditLogging.Elasticsearch/LINGYUN/Abp/AuditLogging/Elasticsearch/ElasticsearchAuditLogManager.cs:241-323 | A non-empty list of clauses, each asked for by its filter, means some filter was supplied. |
| AuditLogQuery.Save | aspnet-core/modules/auditing/LINGYUN.Abp.AuditLogging.Elasticsearch/LINGYUN/Abp/AuditLogging/Elasticsearch/ElasticsearchAuditLogManager.cs:187-206 | A successful save returns its id. A failed save fails with the same error when errors are not hidden. When errors are hidden it returns the empty id, unless the audit-log object is null: building the warning text (line 202) then throws a null-reference error, which escapes. So the call fails exactly when the save throws and errors are either not hidden or the audit-log object is null. |

## Left out

- I/O and the network: the HTTP request, JSON (de)serialisation, the Elasticsearch client calls (search, count, get, index) and the job store's persistence are not modelled. Their effects are values passed in: the response record, the save outcome, and the in-memory store and scheduler.
- Asynchrony, dependency injection and concurrency: `async`/`await`, service resolution and concurrent handlers for the same job are not modelled. The handler takes no lock of its own (JobExecutedEvent.cs:9-53), so two overlapping runs for one job key can each read the same record and one `TryCount` or `TriggerCount` increment can be lost. The model runs one handler call at a time and does not show this.
- `TencentSecretKeyCaculater.CalcSecretKey` and the framework's `ToCamelCase`/`ToPascalCase` are not part of this model. They are function-typed parameters, so the properties hold for any definition of them.
- Localisation: the text of the user-friendly error is not modelled, only that this error is raised.
- Floating point: latitude and longitude are formatted into the `location` parameter by the caller (`location` is its text). POI distances arrive already converted to integers (`Convert.ToInt32`, including its rounding and overflow, is left out).
- BackgroundJobs.Executed: counters are unbounded integers; 32-bit wrap-around of the trigger and try counts at `int.MaxValue` is not modelled.
- BackgroundJobs.JobStore.Find: the store returns a fresh object holding a value record. Aliasing between the returned object and the store's own copy is not modelled; the single write at the end makes the two the same for this handler.
- BackgroundJobs.JobInfo.constructor: only the job-record fields the handler reads or writes are modelled; the others (name, group, arguments, cron, priority, …) are left out because the handler never touches them.
- Exceptions thrown by the store, the scheduler or the HTTP layer are not modelled.
- Case-insensitive comparison (`InvariantCultureIgnoreCase`, `StringComparer.InvariantCultureIgnoreCase`) is modelled as ordinal comparison after ASCII letter folding. The invariant culture's rules are left out: Unicode case folding, and the code points a culture-sensitive comparison ignores, such as the soft hyphen. The suffix test in `ParseSortOrder` and the key lookup in `MapFieldName` can therefore differ from the source for non-ASCII input.
- Dictionary order: a request's parameters are a sequence in insertion order. This is taken to be the order in which `Dictionary<string, string>` enumerates a dictionary that never had a key removed, which .NET does not guarantee. The URL `BuildRequestUrl` produces depends on this order, and so does the parameter list the signer receives.
- `IsNullOrWhiteSpace` and `Split()` use `char.IsWhiteSpace`, modelled by its code-point list; surrogate pairs are not considered.
- IP-geocode, geocode and reverse-geocode responses are not mapped into result objects beyond the address, the formatted address and the POIs; the other fields (street, city, confidence, …) are plain copies and are left out.
- AuditLogQuery.BuildQueryDescriptor: produces tags naming each clause's test and value, not Elasticsearch query descriptors. The field each clause runs on is `FieldOf` of the tag, through the mapping stated by `ClauseIndexField`. The camel or Pascal casing that `GetField` applies after the mapping is left to the casing helpers.
- The `includeDetails` source filter, paging (`skipCount`, `maxResultCount`), the index name and the logging calls of `SaveAsync` are left out; they have no logic beyond passing values on. The one exception is the `auditInfo.ToString()` call in the catch block, which throws for a null audit-log object; `Save` models that throw through its `auditInfoIsNull` flag. The text `ToString()` returns is not modelled.
- `SaveLogAsync` (mapping an audit-log info object to a document) is not part of this model; `Save` takes its outcome as a parameter.
