# map_to_s3 request rewriter, modelled in Dafny

The cdn-lambda repository's one function, `map_to_s3`, is an AWS Lambda
handler that sits in a CloudFront origin-request path. Given a request, it
looks up the row of a DynamoDB table that maps the request's `uri` to an S3
object key and is in force now. That row has the greatest `from_date` not
after the present instant. The handler then rewrites the request's `uri` to
`"/" + object_key`. When no row is in force, it answers with a fixed 404
object. The same handler can also run as a CodePipeline action. In that case
the uri comes from the job's user parameters, and the handler reports success
or failure for the job to CodePipeline.

The model has five modules:

- `Wrappers`: Option and Result.
- `Json`: the event as a JSON value, with Python's truthiness, Python's
  subscripting and the exceptions subscripting raises.
- `Timestamps`: the string order DynamoDB uses on `S` values, and the text
  `datetime.isoformat(timespec="milliseconds")` gives for a UTC instant. The
  main result is that string order on that text is chronological order.
- `VersionIndex`: the table's rows and the handler's query
  (`web_uri = :u and from_date <= :d`, newest first, `Limit=1`). The query is
  proved against an independent definition: the newest matching row.
- `MapToS3`: the handler. The pure part is specification functions:
  `Classify` for the event, `Fetch` up to the query's answer, `Respond` for
  the found and not-found branches, and `Handle` for the whole invocation.
  Lemmas state what an invocation does. The stateful part is the
  `LambdaClient` class, which keeps the lazily created configuration, the
  DynamoDB client and the CodePipeline client. Its methods are proved against
  the specification functions. The CodePipeline client is an object that
  records the job results put through it.

Three inputs of the handler become parameters: the configuration file's
contents (`file`), the DynamoDB tables (`cloud`, keyed by region and table
name) and the clock (`now`). Python exceptions become the `Error` datatype,
and the handler's result is `Rewritten(request) | NotFound404 | Raised(error)`.

Behaviour of the code worth knowing:

- A failing DynamoDB query (lines 82-97) is outside the `try`. It is
  re-raised without any failure report to CodePipeline, even for a pipeline
  job. `QueryFailureIsRaisedUnreported` states this.
- A pipeline invocation also returns a value, the rewritten request or the
  404 object, just as an edge invocation does.
- The handler does not check that the uri is non-empty.
- A job whose `id` cannot be read makes `report_success` and
  `report_failure` raise. On the not-found path this means the handler
  raises instead of returning the 404 object.
- The `except` clause runs `json.dumps` on the found row before it reports
  the failure. boto3 returns binary attributes (types B and BS) as `bytes`,
  which `json.dumps` refuses with a TypeError. So a row holding binary data
  is never reported: the TypeError is raised instead of the original
  exception.

## Model

| member | source | states |
|---|---|---|
| `MapToS3.Classify` | cdn_lambda/functions/map_to_s3/map_to_s3.py:62-74 | a non-dict event raises AttributeError; the invocation has a job exactly when "CodePipeline.job" is truthy; a job's request is `{"uri": UserParameters}`; otherwise the request is `event["Records"][0]["cf"]["request"]`; a dict event is classified exactly when the subscript chain it needs succeeds, and otherwise raises that chain's exception |
| `MapToS3.ClassifyPipelineEvent` | cdn_lambda/functions/map_to_s3/map_to_s3.py:63-71 | a CodePipeline event is classified as its job, with its user parameters as the uri |
| `MapToS3.ClassifyEdgeEvent` | cdn_lambda/functions/map_to_s3/map_to_s3.py:72-74 | a CloudFront event is classified as having no job, with its own request |
| `MapToS3.FalsyJobIsIgnored` | cdn_lambda/functions/map_to_s3/map_to_s3.py:63-65 | a falsy "CodePipeline.job" entry (null, {}, "", 0, ...) classifies the event exactly as if the entry were absent |
| `Json.At` | cdn_lambda/functions/map_to_s3/map_to_s3.py:68-74 | a key subscript succeeds exactly on a dict holding the key and gives its value; a position subscript on a list succeeds exactly in range; a dict never raises anything but KeyError |
| `Json.PathOfNest` | cdn_lambda/functions/map_to_s3/map_to_s3.py:68-74 | a chain of subscripts through the document built from those subscripts gives back the leaf |
| `Json.Path` | cdn_lambda/functions/map_to_s3/map_to_s3.py:68-74 | a chain of one subscript is that subscript; a chain whose first subscript raises raises that exception |
| `Json.PathAppend` | cdn_lambda/functions/map_to_s3/map_to_s3.py:68-74 | subscripting with a chain `a + b` is subscripting with `a` and then with `b` from where `a` led, and an exception in `a` ends the chain |
| `Timestamps.Iso` | cdn_lambda/functions/map_to_s3/map_to_s3.py:90-94 | the `:d` text is 29 characters, with `-`, `-`, `T`, `:`, `:`, `.` at positions 4, 7, 10, 13, 16, 19 and ending in `+00:00` |
| `Timestamps.NotAboveTotalOrder` | cdn_lambda/functions/map_to_s3/map_to_s3.py:86 | the `<=` of the key condition, string order on S values, is reflexive, antisymmetric, transitive and total |
| `Timestamps.BelowConcat` | cdn_lambda/functions/map_to_s3/map_to_s3.py:86 | for strings starting with parts of equal length, the first parts decide the order, and the rests decide only when the first parts are equal |
| `Timestamps.PadOrder` | cdn_lambda/functions/map_to_s3/map_to_s3.py:90-94 | zero-padded numbers of one width compare as strings exactly as they compare as numbers, and are equal only for equal numbers |
| `Timestamps.RenderOrder` | cdn_lambda/functions/map_to_s3/map_to_s3.py:90-94 | fields rendered with fixed widths and separators compare as strings exactly as the field tuples compare, and render equal only when equal |
| `Timestamps.IsoRendersFields` | cdn_lambda/functions/map_to_s3/map_to_s3.py:90-94 | the isoformat text of an instant is its fields rendered with widths 4,2,2,2,2,2,3 and separators `- - T : : . +00:00` |
| `Timestamps.IsoChronological` | cdn_lambda/functions/map_to_s3/map_to_s3.py:86-95 | the `:d` timestamps the handler sends compare as strings exactly as the instants compare in time, and different instants give different text |
| `VersionIndex.Latest` | cdn_lambda/functions/map_to_s3/map_to_s3.py:82-97 | a row it selects is a row of the table that meets the key condition |
| `VersionIndex.Query` | cdn_lambda/functions/map_to_s3/map_to_s3.py:82-97 | the response holds at most one item (`Limit=1`), and only a row of the table that meets the key condition |
| `VersionIndex.LatestIsNewest` | cdn_lambda/functions/map_to_s3/map_to_s3.py:82-97 | a row is selected exactly when some row matches, and the selected row has the greatest `from_date` of the matching rows (`ScanIndexForward=False`) |
| `VersionIndex.QuerySelectsNewest` | cdn_lambda/functions/map_to_s3/map_to_s3.py:82-97 | with the table's unique (web_uri, from_date) key, the query answers `[e]` if and only if `e` is the newest matching row, and `[]` if and only if no row matches |
| `VersionIndex.NewestIsUnique` | cdn_lambda/functions/map_to_s3/map_to_s3.py:82-86 | with unique keys at most one row is the newest matching row |
| `VersionIndex.QueryIgnoresStorageOrder` | cdn_lambda/functions/map_to_s3/map_to_s3.py:82-97 | the answer depends only on which rows the table holds, not on their order |
| `VersionIndex.QueryIsChronological` | cdn_lambda/functions/map_to_s3/map_to_s3.py:86-95 | for rows stamped in isoformat text, the returned row is in force at `now`, and no row for the uri that is in force at `now` is later |
| `VersionIndex.EarlierVersionInForce` | cdn_lambda/functions/map_to_s3/map_to_s3.py:82-97 | with versions from `t1` and from `t2`, at any instant from `t1` up to `t2` the query answers the first version |
| `MapToS3.RunQuery` | cdn_lambda/functions/map_to_s3/map_to_s3.py:82-97 | the query answers exactly when the uri is a string and the table exists; a non-string uri is a parameter-validation error; the answer is the table's query result |
| `MapToS3.Fetch` | cdn_lambda/functions/map_to_s3/map_to_s3.py:59-97 | the query answers exactly when the event is classified, its request has a string `uri`, and the configured table exists; it then queries that table at `Iso(now)`; otherwise the invocation stops with the classification's exception, the `uri` subscript's KeyError/TypeError, ParamValidationError for a non-string uri, or ResourceNotFound |
| `MapToS3.Returned` | cdn_lambda/functions/map_to_s3/map_to_s3.py:110-129 | the caller gets the rewritten request dict, or exactly `{"status": "404", "statusDescription": "Not Found"}` when nothing was found, or the exception, and an exception exactly when the outcome raised |
| `MapToS3.Respond` | cdn_lambda/functions/map_to_s3/map_to_s3.py:99-129 | a rewrite happens if and only if a row was found with a string object_key and the job id (if any) is readable; 404 if and only if no row and a readable id; the rewrite changes only `uri`, to "/" + object_key; a job with a readable id gets exactly one report unless the row that failed holds binary data, a report carries the job id, is a success exactly when the request was rewritten, and every failure is of type "JobFailed"; a raised outcome carries the id's KeyError when the job id cannot be read, the object_key KeyError when the row has no string key, and the dump's TypeError instead whenever the row that failed holds binary data |
| `MapToS3.Handle` | cdn_lambda/functions/map_to_s3/map_to_s3.py:59-129 | the pipeline client is used only for a job whose query answered, and then exactly unless a row without a string object_key fails to dump first; a report is sent only when the client is used; an invocation stopped before the query's answer raises and reports nothing; 404 only when the query found nothing; a run stopped before the query's answer raises exactly the exception and stops at exactly the stage `Fetch` gives |
| `MapToS3.EdgeInvocationsNeverReport` | cdn_lambda/functions/map_to_s3/map_to_s3.py:42-57 | an invocation without a job sends no report and never uses the pipeline client |
| `MapToS3.RewriteChangesOnlyUri` | cdn_lambda/functions/map_to_s3/map_to_s3.py:99-110 | a returned request is the event's request with the same keys, only `uri` changed, to "/" + the object key of the one row the query returned |
| `MapToS3.OutcomeOfQuery` | cdn_lambda/functions/map_to_s3/map_to_s3.py:99-129 | once the query answered, the outcome is a rewrite, 404 or an exception, and each iff its stated condition on the row and the job id holds |
| `MapToS3.OneReportPerJob` | cdn_lambda/functions/map_to_s3/map_to_s3.py:99-123 | a job gets exactly one report, unless its row fails and cannot be dumped: success "Retrieved <new uri>" for a rewrite, JobFailed "No item found for '<uri>'" for 404, JobFailed naming the row when the row could not be processed |
| `MapToS3.RespondReportsOnce` | cdn_lambda/functions/map_to_s3/map_to_s3.py:99-123 | once the query answered, a truthy job with a readable id is sent one report, unless its row fails and cannot be dumped: the success text for a rewrite, the no-item text for 404, or the row for a processing failure |
| `MapToS3.FailureReportsAreJobFailed` | cdn_lambda/functions/map_to_s3/map_to_s3.py:50-57 | every report comes from a job event and carries that job's id, and every failure report has type "JobFailed" |
| `MapToS3.MalformedRowIsReportedThenRaised` | cdn_lambda/functions/map_to_s3/map_to_s3.py:102-119 | a found row without a string object_key is reported as a failure for a job and its KeyError is then raised; a row holding binary data is not reported and the dump's TypeError is raised; neither a request nor a 404 is returned |
| `MapToS3.ObjectKey` | cdn_lambda/functions/map_to_s3/map_to_s3.py:105 | a row yields its key exactly when `object_key` is an S value; a missing `object_key` raises KeyError("object_key"), another type KeyError("S") |
| `MapToS3.Abort` | cdn_lambda/functions/map_to_s3/map_to_s3.py:111-119 | the `except` clause always raises: a row with binary data raises the dump's TypeError and sends nothing; otherwise a job with a readable id is sent one JobFailed report naming the row and the original exception is re-raised, and an unreadable id raises its KeyError |
| `MapToS3.SuccessReport` | cdn_lambda/functions/map_to_s3/map_to_s3.py:42-48 | nothing sent, nothing raised unless the job is there and truthy (`if job:`); a job: raises exactly when `job["id"]` cannot be read, and otherwise sends exactly one success result with that id and the message |
| `MapToS3.FailureReport` | cdn_lambda/functions/map_to_s3/map_to_s3.py:50-57 | as SuccessReport, with one failure result of type "JobFailed" |
| `MapToS3.ActsOnNewestRow` | cdn_lambda/functions/map_to_s3/map_to_s3.py:82-99 | the row the handler acts on is the newest row for the uri in force at now, and it finds none if and only if no row is in force |
| `MapToS3.EdgeRequestRewritten` | cdn_lambda/functions/map_to_s3/map_to_s3.py:72-110 | a CloudFront request with a row in force is returned with uri "/" + key and nothing is reported |
| `MapToS3.EdgeRequestNotFound` | cdn_lambda/functions/map_to_s3/map_to_s3.py:120-129 | a CloudFront request with no row in force gets the 404 object and nothing is reported |
| `MapToS3.PipelineJobRewritten` | cdn_lambda/functions/map_to_s3/map_to_s3.py:65-110 | a pipeline job with a row in force returns `{"uri": "/" + key}` and reports success "Retrieved /<key>" with the job id |
| `MapToS3.PipelineJobNotFound` | cdn_lambda/functions/map_to_s3/map_to_s3.py:65-129 | a pipeline job with no row in force returns the 404 object and reports a JobFailed failure "No item found for '<uri>'" with the job id |
| `MapToS3.FetchPipelineEvent` | cdn_lambda/functions/map_to_s3/map_to_s3.py:63-97 | a CodePipeline event with a readable id reaches the query as a truthy job, with request `{"uri": uri}` and the configured table's answer |
| `MapToS3.QueryFailureIsRaisedUnreported` | cdn_lambda/functions/map_to_s3/map_to_s3.py:82-99 | a query that raises is re-raised, with no report and no use of the pipeline client |
| `MapToS3.DbClient.constructor` | cdn_lambda/functions/map_to_s3/map_to_s3.py:29-31 | a DynamoDB client is bound to the region it was created for |
| `MapToS3.PipelineClient.constructor` | cdn_lambda/functions/map_to_s3/map_to_s3.py:38 | a new CodePipeline client has sent nothing |
| `MapToS3.PipelineClient.PutJobSuccessResult` | cdn_lambda/functions/map_to_s3/map_to_s3.py:46-48 | a success call appends one success result with the job id and summary |
| `MapToS3.PipelineClient.PutJobFailureResult` | cdn_lambda/functions/map_to_s3/map_to_s3.py:54-57 | a failure call appends one failure result with the job id, type and message |
| `MapToS3.LambdaClient.constructor` | cdn_lambda/functions/map_to_s3/map_to_s3.py:11-16 | a new client has no configuration and no AWS clients yet |
| `MapToS3.LambdaClient.GetConf` | cdn_lambda/functions/map_to_s3/map_to_s3.py:18-24 | the first access loads the file; once set, the configuration is returned unchanged and never reloaded |
| `MapToS3.LambdaClient.GetDbClient` | cdn_lambda/functions/map_to_s3/map_to_s3.py:26-33 | the first access creates a fresh client in the configured region, loading the configuration if needed; later accesses return the same client |
| `MapToS3.LambdaClient.GetPipelineClient` | cdn_lambda/functions/map_to_s3/map_to_s3.py:35-40 | the first access creates a fresh client with nothing sent; later accesses return the same client |
| `MapToS3.LambdaClient.ReportSuccess` | cdn_lambda/functions/map_to_s3/map_to_s3.py:42-48 | with no job or a falsy one (`if job:`) nothing is sent and the pipeline client is not touched; with a job exactly the success result for its id is sent, or the KeyError for a missing id raised |
| `MapToS3.LambdaClient.ReportFailure` | cdn_lambda/functions/map_to_s3/map_to_s3.py:50-57 | as ReportSuccess, with a "JobFailed" failure result |
| `MapToS3.LambdaClient.AnswerQuery` | cdn_lambda/functions/map_to_s3/map_to_s3.py:99-129 | the found and not-found branches return `Respond`'s outcome and send exactly its reports |
| `MapToS3.LambdaClient.Handler` | cdn_lambda/functions/map_to_s3/map_to_s3.py:59-129 | returns or raises what `Handle`'s outcome says (`Returned`) and sends exactly its reports; loads the configuration, creates the DynamoDB client and the pipeline client exactly as far as the invocation got; a configuration or client once set stays the same |

## Left out

- Reading map_to_s3.json (lines 20-22) is file I/O. Its contents are the parameter `file`.
- A configuration without `table`, `name` or `region` is not modelled. In the source, that raises KeyError.
- An empty configuration object is not modelled. It is falsy, so the source would re-read the file on every access.
- boto3 and the AWS services are network calls. The query is modelled by its selection rule over the rows of `cloud`. Its only failures are a non-string uri (parameter validation) and an unknown table.
- Other failures of the query (throttling, permissions, network) are not modelled. They would propagate like the unknown-table case.
- The `put_job_*_result` calls are modelled as always succeeding. boto3's validation of a non-string job id is not modelled.
- `datetime.now(timezone.utc)` is the clock, so it is the parameter `now`.
- Day-of-month validity per month is not modelled. An `Instant` allows day 1-31 in every month, which does not affect ordering.
- `LOG.info` calls have no observable effect.
- The text of `json.dumps(item)` in the processing-error message is not modelled. The failure report carries the row itself (`ProcessingError(item)`). Whether the dump succeeds is modelled: it fails exactly when the row holds binary data (the row's `hasBytes` flag).
- The module-level `lambda_handler` instance (line 133) and the unused `context` argument are runtime wiring.
- MapToS3.LambdaClient.Handler: the request is a value, not a shared dict. In the source, a CloudFront event's request dict is changed in place and that same object is returned, so the caller's event sees the new uri. The same change is also visible when `report_success` then raises. This aliasing is not modelled.
- JSON numbers are integers, so truthiness of floats is not modelled.
- DynamoDB rejects an empty string as a key value. The model does not; an empty uri simply matches no row.
- Rows' `web_uri` and `from_date` are always strings (they are the table's key attributes). `object_key` may be missing or of another type. Which non-string type it has is not modelled, beyond whether the row holds binary data.
