/** The map_to_s3 Lambda function: `LambdaClient.handler` takes a CloudFront
    origin-request event (or a CodePipeline job event), looks up the S3
    object key that the request's uri maps to at the present instant, and
    either rewrites the request's uri to that key or answers 404; for a
    pipeline job it also reports success or failure to CodePipeline.

    The configuration file, the DynamoDB tables and the clock are inputs
    here (`file`, `cloud`, `now`); the two AWS clients are objects of the
    model, and the pipeline client records the job results put through it.
    Python's exceptions become `Error` values. */
module MapToS3 {
  import opened Wrappers
  import opened Json
  import opened Timestamps
  import opened VersionIndex

  /** What the handler reads from map_to_s3.json: `conf["table"]["name"]`
      and `conf["table"]["region"]`. */
  datatype Conf = Conf(tableName: string, region: string)

  /** A DynamoDB table is found by its region and its name. */
  datatype TableRef = TableRef(region: string, name: string)

  /** The tables a DynamoDB client can reach, with their rows. */
  type Cloud = map<TableRef, seq<Item>>

  /** The exceptions the handler can raise. */
  datatype Error =
    | Access(e: AccessError)  // subscripting the event, the request or the job failed
    | AttributeError          // the event is not a dict, so it has no `get`
    | ParamValidationError    // boto3 refused a key value that is not a string
    | ResourceNotFound        // the configured table does not exist in the region
    | Unserialisable          // `json.dumps` met a `bytes` value (Python's TypeError)

  const JobKey := "CodePipeline.job"
  const UriKey := "uri"
  const IdKey := "id"
  const JobFailed := "JobFailed"
  /** Where a pipeline job keeps the uri: `job["data"]["actionConfiguration"]["configuration"]["UserParameters"]`. */
  const UserParametersPath: seq<Step> := [Key("data"), Key("actionConfiguration"), Key("configuration"), Key("UserParameters")]
  /** Where a CloudFront event keeps the request: `event["Records"][0]["cf"]["request"]`. */
  const RequestPath: seq<Step> := [Key("Records"), Pos(0), Key("cf"), Key("request")]

  // ---------------------------------------------------------------------
  // Classifying the event

  /** The normalised invocation: the pipeline job, if any, and the request dict. */
  datatype Trigger = Trigger(job: Option<Json>, request: Json)

  /** `if job:`: a job that is there and truthy. */
  predicate IsJob(job: Option<Json>) {
    job.Some? && Truthy(job.value)
  }

  /** `event.get("CodePipeline.job", None) or None` is a job. */
  predicate IsJobEvent(event: Json) {
    event.JObj? && IsJob(if JobKey in event.fields then Some(event.fields[JobKey]) else None)
  }

  /** The first lines of `handler`: a truthy "CodePipeline.job" makes a
      pipeline invocation whose request is `{"uri": UserParameters}`;
      anything else is read as a CloudFront event. */
  function Classify(event: Json): (r: Result<Trigger, Error>)
    ensures !event.JObj? <==> r == Failure(AttributeError)
    ensures r.Success? ==> (r.value.job.Some? <==> IsJobEvent(event))
    ensures r.Success? && r.value.job.Some? ==>
              r.value.job.value == event.fields[JobKey]
              && Path(event.fields[JobKey], UserParametersPath).Success?
              && r.value.request == JObj(map[UriKey := Path(event.fields[JobKey], UserParametersPath).value])
    ensures r.Success? && r.value.job.None? ==> Path(event, RequestPath) == Success(r.value.request)
    ensures IsJobEvent(event) ==>
              var p := Path(event.fields[JobKey], UserParametersPath);
              (r.Success? <==> p.Success?) && (p.Failure? ==> r == Failure(Access(p.error)))
    ensures event.JObj? && !IsJobEvent(event) ==>
              var p := Path(event, RequestPath);
              (r.Success? <==> p.Success?) && (p.Failure? ==> r == Failure(Access(p.error)))
  {
    match event
    case JObj(m) =>
      if JobKey in m && Truthy(m[JobKey]) then
        (match Path(m[JobKey], UserParametersPath)
         case Success(params) => Success(Trigger(Some(m[JobKey]), JObj(map[UriKey := params])))
         case Failure(e) => Failure(Access(e)))
      else
        (match Path(event, RequestPath)
         case Success(request) => Success(Trigger(None, request))
         case Failure(e) => Failure(Access(e)))
    case _ => Failure(AttributeError)
  }

  /** The job CodePipeline sends for job `id` with user parameters `params`. */
  function PipelineJob(id: Json, params: Json): Json {
    JObj(map[IdKey := id, "data" := Nest(UserParametersPath[1..], params)])
  }

  /** A CodePipeline invocation event. */
  function PipelineEvent(id: Json, params: Json): Json {
    JObj(map[JobKey := PipelineJob(id, params)])
  }

  /** A CloudFront origin-request event carrying `request`. */
  function EdgeEvent(request: Json): Json {
    Nest(RequestPath, request)
  }

  /** A pipeline event is classified as that job, with its user parameters as the uri. */
  lemma ClassifyPipelineEvent(id: Json, params: Json)
    ensures Classify(PipelineEvent(id, params))
            == Success(Trigger(Some(PipelineJob(id, params)), JObj(map[UriKey := params])))
  {
    var job := PipelineJob(id, params);
    assert Truthy(job) by {
      assert IdKey in job.fields;
    }
    PathOfNest(UserParametersPath[1..], params);
    assert At(job, UserParametersPath[0]) == Success(Nest(UserParametersPath[1..], params));
  }

  /** A CloudFront event is classified as having no job, with its own request. */
  lemma ClassifyEdgeEvent(request: Json)
    ensures Classify(EdgeEvent(request)) == Success(Trigger(None, request))
  {
  }

  /** A "CodePipeline.job" entry that is falsy (null, {}, "", ...) is as if absent. */
  lemma FalsyJobIsIgnored(m: map<string, Json>)
    requires JobKey in m && !Truthy(m[JobKey])
    ensures Classify(JObj(m)) == Classify(JObj(m - {JobKey}))
  {
  }

  // ---------------------------------------------------------------------
  // The query

  /** `db_client.query(...)`: boto3 refuses a key value that is not a string
      before sending anything; DynamoDB refuses an unknown table; otherwise
      the response's `Items`. */
  function RunQuery(cloud: Cloud, table: TableRef, uri: Json, asOf: string): (r: Result<seq<Item>, Error>)
    ensures r.Success? <==> uri.JStr? && table in cloud
    ensures !uri.JStr? ==> r == Failure(ParamValidationError)
    ensures r.Success? ==> r.value == Query(cloud[table], uri.s, asOf)
  {
    if !uri.JStr? then Failure(ParamValidationError)
    else if table !in cloud then Failure(ResourceNotFound)
    else Success(Query(cloud[table], uri.s, asOf))
  }

  /** How far an invocation got before it raised or answered. */
  datatype Stage =
    | Rejected  // the event could not be classified; nothing was touched
    | ConfRead  // the configuration was loaded, the request had no readable uri
    | DbOpened  // the DynamoDB client exists, the query raised
    | Queried   // the query answered

  /** Everything up to the query's answer. */
  datatype FetchResult =
    | Stopped(error: Error, stage: Stage)
    | Fetched(job: Option<Json>, request: map<string, Json>, uri: string, items: seq<Item>)

  /** The request's `uri` entry, as the invocation classified from `event` sees it. */
  function RequestUri(event: Json): Result<Json, Error>
    requires Classify(event).Success?
  {
    match At(Classify(event).value.request, Key(UriKey))
    case Success(u) => Success(u)
    case Failure(e) => Failure(Access(e))
  }

  function Fetch(event: Json, conf: Conf, cloud: Cloud, now: Instant): (f: FetchResult)
    ensures f.Fetched? <==>
              Classify(event).Success? && RequestUri(event).Success? && RequestUri(event).value.JStr?
              && TableRef(conf.region, conf.tableName) in cloud
    ensures f.Stopped? ==> f.stage != Queried
    ensures f.Stopped? ==> (f.stage == Rejected <==> Classify(event).Failure?)
    ensures f.Stopped? && f.stage == Rejected ==> f.error == Classify(event).error
    ensures f.Stopped? && f.stage == ConfRead ==> Classify(event).Success? && RequestUri(event) == Failure(f.error)
    ensures f.Stopped? && f.stage == DbOpened ==>
              Classify(event).Success? && RequestUri(event).Success?
              && (if RequestUri(event).value.JStr? then f.error == ResourceNotFound else f.error == ParamValidationError)
    ensures f.Fetched? ==>
              Classify(event) == Success(Trigger(f.job, JObj(f.request)))
              && UriKey in f.request && f.request[UriKey] == JStr(f.uri)
              && TableRef(conf.region, conf.tableName) in cloud
              && f.items == Query(cloud[TableRef(conf.region, conf.tableName)], f.uri, Iso(now))
  {
    match Classify(event)
    case Failure(e) => Stopped(e, Rejected)
    case Success(t) =>
      match At(t.request, Key(UriKey))
      case Failure(e) => Stopped(Access(e), ConfRead)
      case Success(uri) =>
        match RunQuery(cloud, TableRef(conf.region, conf.tableName), uri, Iso(now))
        case Failure(e) => Stopped(e, DbOpened)
        case Success(items) => Fetched(t.job, t.request.fields, uri.s, items)
  }

  // ---------------------------------------------------------------------
  // Reporting to CodePipeline

  /** Where a failure report is about: free text, or the row that could not
      be processed (the source puts `json.dumps` of the row in the text). */
  datatype Message = Text(text: string) | ProcessingError(item: Item)

  /** A call on the CodePipeline client. */
  datatype Report =
    | JobSuccess(jobId: Json, summary: string)
    | JobFailure(jobId: Json, failureType: string, message: Message)

  /** What one `report_*` call sends, and the exception it raises, if any. */
  datatype Attempt = Attempt(sent: seq<Report>, error: Option<Error>)

  /** `job["id"]` can be read (or there is no job, and nothing to read). */
  predicate IdReadable(job: Option<Json>) {
    !IsJob(job) || At(job.value, Key(IdKey)).Success?
  }

  /** `report_success(job, message)`. */
  function SuccessReport(job: Option<Json>, message: string): (a: Attempt)
    ensures !IsJob(job) ==> a == Attempt([], None)
    ensures a.error.None? <==> IdReadable(job)
    ensures IsJob(job) && IdReadable(job) ==> a.sent == [JobSuccess(At(job.value, Key(IdKey)).value, message)]
    ensures !IdReadable(job) ==> a.sent == [] && a.error == Some(Access(At(job.value, Key(IdKey)).error))
  {
    if !IsJob(job) then Attempt([], None)
    else
      match At(job.value, Key(IdKey))
      case Success(id) => Attempt([JobSuccess(id, message)], None)
      case Failure(e) => Attempt([], Some(Access(e)))
  }

  /** `report_failure(job, message)`. */
  function FailureReport(job: Option<Json>, message: Message): (a: Attempt)
    ensures !IsJob(job) ==> a == Attempt([], None)
    ensures a.error.None? <==> IdReadable(job)
    ensures IsJob(job) && IdReadable(job) ==> a.sent == [JobFailure(At(job.value, Key(IdKey)).value, JobFailed, message)]
    ensures !IdReadable(job) ==> a.sent == [] && a.error == Some(Access(At(job.value, Key(IdKey)).error))
  {
    if !IsJob(job) then Attempt([], None)
    else
      match At(job.value, Key(IdKey))
      case Success(id) => Attempt([JobFailure(id, JobFailed, message)], None)
      case Failure(e) => Attempt([], Some(Access(e)))
  }

  // ---------------------------------------------------------------------
  // Answering

  /** What the handler does: return a rewritten request, return the 404
      object, or raise. */
  datatype Outcome = Rewritten(request: map<string, Json>) | NotFound404 | Raised(error: Error)

  /** The object returned when no mapping holds. */
  const NotFoundResponse: map<string, Json> := map["status" := JStr("404"), "statusDescription" := JStr("Not Found")]

  /** What the caller of `handler` gets: the returned dict, or the exception. */
  function Returned(o: Outcome): (r: Result<Json, Error>)
    ensures r.Failure? <==> o.Raised?
    ensures o.Raised? ==> r.error == o.error
    ensures o.Rewritten? ==> r == Success(JObj(o.request))
    ensures o.NotFound404? ==> r == Success(JObj(map["status" := JStr("404"), "statusDescription" := JStr("Not Found")]))
  {
    match o
    case Rewritten(request) => Success(JObj(request))
    case NotFound404 => Success(JObj(NotFoundResponse))
    case Raised(e) => Failure(e)
  }

  /** `item["object_key"]["S"]`: a row's S3 key, or the KeyError for the
      subscript that found nothing. */
  function ObjectKey(item: Item): (r: Result<string, Error>)
    ensures r.Success? <==> item.objectKey.Some? && item.objectKey.value.S?
    ensures r.Success? ==> item.objectKey == Some(S(r.value))
    ensures item.objectKey.None? ==> r == Failure(Access(KeyError(Key("object_key"))))
    ensures item.objectKey == Some(NonString) ==> r == Failure(Access(KeyError(Key("S"))))
  {
    match item.objectKey
    case None => Failure(Access(KeyError(Key("object_key"))))
    case Some(NonString) => Failure(Access(KeyError(Key("S"))))
    case Some(S(key)) => Success(key)
  }

  /** The outcome and the reports of one invocation once the query has answered. */
  datatype Reply = Reply(outcome: Outcome, sent: seq<Report>)

  /** The `except` clause: `json.dumps` the row, report the failure, then
      re-raise the exception, unless dumping or reporting raised one of its
      own first. */
  function Abort(job: Option<Json>, item: Item, err: Error): (r: Reply)
    ensures r.outcome.Raised?
    ensures item.hasBytes ==> r == Reply(Raised(Unserialisable), [])
    ensures !item.hasBytes && IdReadable(job) ==> r.outcome.error == err
    ensures !item.hasBytes && !IdReadable(job) ==> r == Reply(Raised(Access(At(job.value, Key(IdKey)).error)), [])
    ensures !item.hasBytes && IsJob(job) && IdReadable(job) ==>
              r.sent == [JobFailure(At(job.value, Key(IdKey)).value, JobFailed, ProcessingError(item))]
    ensures !IsJob(job) ==> r.sent == []
  {
    if item.hasBytes then Reply(Raised(Unserialisable), [])
    else
      var f := FailureReport(job, ProcessingError(item));
      Reply(Raised(f.error.GetOr(err)), f.sent)
  }

  /** The found row is one the `except` clause cannot dump, so it reports nothing. */
  predicate Undumpable(items: seq<Item>) {
    items != [] && items[0].hasBytes
  }

  /** The answer to a query touches the pipeline client: there is a job, and
      the handler does not fail on dumping a row before any `report_*` call. */
  predicate ReachesPipeline(job: Option<Json>, items: seq<Item>) {
    IsJob(job) && !(Undumpable(items) && ObjectKey(items[0]).Failure?)
  }

  /** The found / not-found branches of `handler`. */
  function Respond(job: Option<Json>, request: map<string, Json>, uri: string, items: seq<Item>): (r: Reply)
    ensures r.outcome.Rewritten? <==> items != [] && ObjectKey(items[0]).Success? && IdReadable(job)
    ensures r.outcome.NotFound404? <==> items == [] && IdReadable(job)
    ensures r.outcome.Rewritten? ==>
              r.outcome.request.Keys == request.Keys + {UriKey}
              && r.outcome.request[UriKey] == JStr("/" + ObjectKey(items[0]).value)
              && forall k :: k in request && k != UriKey ==> r.outcome.request[k] == request[k]
    ensures !IdReadable(job) ==>
              r == Reply(Raised(if Undumpable(items) then Unserialisable else Access(At(job.value, Key(IdKey)).error)), [])
    ensures IdReadable(job) && items != [] && ObjectKey(items[0]).Failure? ==>
              r.outcome == Raised(if items[0].hasBytes then Unserialisable else ObjectKey(items[0]).error)
    ensures |r.sent| == (if IsJob(job) && IdReadable(job) && !(Undumpable(items) && ObjectKey(items[0]).Failure?) then 1 else 0)
    ensures forall rep :: rep in r.sent ==>
              rep.jobId == At(job.value, Key(IdKey)).value
              && (rep.JobSuccess? <==> r.outcome.Rewritten?)
              && (rep.JobFailure? ==> rep.failureType == JobFailed)
  {
    if items != [] then
      var item := items[0];
      match ObjectKey(item)
      case Failure(e) => Abort(job, item, e)
      case Success(key) =>
        var newUri := "/" + key;
        var s := SuccessReport(job, "Retrieved " + newUri);
        if s.error.None? then Reply(Rewritten(request[UriKey := JStr(newUri)]), s.sent)
        else Abort(job, item, s.error.value)
    else
      var f := FailureReport(job, Text("No item found for '" + uri + "'"));
      if f.error.None? then Reply(NotFound404, f.sent) else Reply(Raised(f.error.value), f.sent)
  }

  /** One invocation of `handler` as a whole, with `conf` the configuration in
      force: the outcome, the reports sent, how far it got, and whether it
      used the pipeline client. */
  datatype Run = Run(outcome: Outcome, sent: seq<Report>, stage: Stage, pipelineUsed: bool)

  function Handle(event: Json, conf: Conf, cloud: Cloud, now: Instant): (r: Run)
    ensures r.pipelineUsed ==> IsJobEvent(event) && r.stage == Queried
    ensures r.stage == Queried <==> Fetch(event, conf, cloud, now).Fetched?
    ensures Fetch(event, conf, cloud, now).Stopped? ==>
              r.outcome == Raised(Fetch(event, conf, cloud, now).error) && r.stage == Fetch(event, conf, cloud, now).stage
    ensures Fetch(event, conf, cloud, now).Fetched? ==>
              (r.pipelineUsed <==> ReachesPipeline(Fetch(event, conf, cloud, now).job, Fetch(event, conf, cloud, now).items))
    ensures r.sent != [] ==> r.pipelineUsed
    ensures r.stage != Queried ==> r.outcome.Raised? && r.sent == []
    ensures r.outcome.NotFound404? ==> Fetch(event, conf, cloud, now).Fetched? && Fetch(event, conf, cloud, now).items == []
  {
    match Fetch(event, conf, cloud, now)
    case Stopped(e, stage) => Run(Raised(e), [], stage, false)
    case Fetched(job, request, uri, items) =>
      var reply := Respond(job, request, uri, items);
      Run(reply.outcome, reply.sent, Queried, ReachesPipeline(job, items))
  }

  // ---------------------------------------------------------------------
  // Properties of an invocation

  /** A CloudFront invocation never calls CodePipeline. */
  lemma EdgeInvocationsNeverReport(event: Json, conf: Conf, cloud: Cloud, now: Instant)
    requires !IsJobEvent(event)
    ensures Handle(event, conf, cloud, now).sent == []
    ensures !Handle(event, conf, cloud, now).pipelineUsed
  {
  }

  /** A rewritten request is the event's request with its uri, and only its
      uri, replaced by "/" and the object key of the newest row for that uri. */
  lemma RewriteChangesOnlyUri(event: Json, conf: Conf, cloud: Cloud, now: Instant)
    ensures Handle(event, conf, cloud, now).outcome.Rewritten? ==>
            var f := Fetch(event, conf, cloud, now);
            var r := Handle(event, conf, cloud, now).outcome.request;
            && f.Fetched? && |f.items| == 1
            && Classify(event) == Success(Trigger(f.job, JObj(f.request)))
            && ObjectKey(f.items[0]).Success?
            && r.Keys == f.request.Keys
            && r[UriKey] == JStr("/" + ObjectKey(f.items[0]).value)
            && forall k :: k in r && k != UriKey ==> r[k] == f.request[k]
  {
  }

  /** The outcome of a query that answered: a usable newest row gives a
      rewrite, no row gives 404, and a row without a string object_key
      raises; a job whose id cannot be read raises in every case. */
  lemma OutcomeOfQuery(event: Json, conf: Conf, cloud: Cloud, now: Instant)
    ensures Fetch(event, conf, cloud, now).Fetched? ==>
            var f := Fetch(event, conf, cloud, now);
            var o := Handle(event, conf, cloud, now).outcome;
            && (o.Rewritten? <==> f.items != [] && ObjectKey(f.items[0]).Success? && IdReadable(f.job))
            && (o.NotFound404? <==> f.items == [] && IdReadable(f.job))
            && (o.Raised? <==> !IdReadable(f.job) || (f.items != [] && ObjectKey(f.items[0]).Failure?))
  {
  }

  /** A pipeline job whose query answered gets exactly one report: success
      with "Retrieved <new uri>" when the request was rewritten, otherwise a
      JobFailed failure that names the uri or the row. */
  lemma OneReportPerJob(event: Json, conf: Conf, cloud: Cloud, now: Instant)
    requires IsJobEvent(event)
    requires Fetch(event, conf, cloud, now).Fetched? && IdReadable(Fetch(event, conf, cloud, now).job)
    ensures var f := Fetch(event, conf, cloud, now);
            var run := Handle(event, conf, cloud, now);
            var id := At(event.fields[JobKey], Key(IdKey)).value;
            && |run.sent| == (if run.outcome.Raised? && Undumpable(f.items) then 0 else 1)
            && (run.outcome.Rewritten? ==>
                  run.sent[0] == JobSuccess(id, "Retrieved /" + ObjectKey(f.items[0]).value))
            && (run.outcome.NotFound404? ==>
                  run.sent[0] == JobFailure(id, JobFailed, Text("No item found for '" + f.uri + "'")))
            && (run.outcome.Raised? && !Undumpable(f.items) ==>
                  run.sent[0] == JobFailure(id, JobFailed, ProcessingError(f.items[0])))
  {
    var f := Fetch(event, conf, cloud, now);
    assert f.job == Some(event.fields[JobKey]);
    RespondReportsOnce(f.job, f.request, f.uri, f.items);
  }

  /** The report `Respond` sends for a job with a readable id. */
  lemma RespondReportsOnce(job: Option<Json>, request: map<string, Json>, uri: string, items: seq<Item>)
    requires IsJob(job) && IdReadable(job)
    ensures var r := Respond(job, request, uri, items);
            var id := At(job.value, Key(IdKey)).value;
            && |r.sent| == (if r.outcome.Raised? && Undumpable(items) then 0 else 1)
            && (r.outcome.Rewritten? ==> r.sent[0] == JobSuccess(id, "Retrieved /" + ObjectKey(items[0]).value))
            && (r.outcome.NotFound404? ==> r.sent[0] == JobFailure(id, JobFailed, Text("No item found for '" + uri + "'")))
            && (r.outcome.Raised? && !Undumpable(items) ==> r.sent[0] == JobFailure(id, JobFailed, ProcessingError(items[0])))
  {
    if items != [] && ObjectKey(items[0]).Success? {
      var key := ObjectKey(items[0]).value;
      assert "Retrieved " + ("/" + key) == "Retrieved /" + key;
    }
  }

  /** Every failure report is of type "JobFailed" and carries the job's id. */
  lemma FailureReportsAreJobFailed(event: Json, conf: Conf, cloud: Cloud, now: Instant)
    ensures forall rep :: rep in Handle(event, conf, cloud, now).sent ==>
              IsJobEvent(event)
              && rep.jobId == At(event.fields[JobKey], Key(IdKey)).value
              && (rep.JobFailure? ==> rep.failureType == JobFailed)
  {
  }

  /** A found row that cannot be processed is reported (for a job) and then
      raised: neither a rewritten request nor a 404 is returned. A row
      holding binary data cannot be dumped into the report's text, so it is
      not reported and the dump's TypeError is raised instead. */
  lemma MalformedRowIsReportedThenRaised(event: Json, conf: Conf, cloud: Cloud, now: Instant)
    requires Fetch(event, conf, cloud, now).Fetched?
    requires Fetch(event, conf, cloud, now).items != []
    requires ObjectKey(Fetch(event, conf, cloud, now).items[0]).Failure?
    ensures var f := Fetch(event, conf, cloud, now);
            var run := Handle(event, conf, cloud, now);
            && run.outcome.Raised?
            && (Undumpable(f.items) ==> run.outcome.error == Unserialisable && run.sent == [])
            && (!Undumpable(f.items) && IsJob(f.job) && IdReadable(f.job) ==>
                  run.outcome.error == ObjectKey(f.items[0]).error
                  && run.sent == [JobFailure(At(f.job.value, Key(IdKey)).value, JobFailed, ProcessingError(f.items[0]))])
            && (!Undumpable(f.items) && !IsJob(f.job) ==> run.outcome.error == ObjectKey(f.items[0]).error && run.sent == [])
  {
  }

  /** The newest row the handler acts on is the row with the latest
      from_date not after now, and 404 means no row for the uri is in force. */
  lemma ActsOnNewestRow(event: Json, conf: Conf, cloud: Cloud, now: Instant)
    requires Fetch(event, conf, cloud, now).Fetched?
    requires KeysUnique(cloud[TableRef(conf.region, conf.tableName)])
    ensures var f := Fetch(event, conf, cloud, now);
            var rows := cloud[TableRef(conf.region, conf.tableName)];
            && (f.items != [] ==> |f.items| == 1 && IsLatest(rows, f.uri, Iso(now), f.items[0]))
            && (f.items == [] <==> forall x :: x in rows ==> !Matches(x, f.uri, Iso(now)))
  {
    var f := Fetch(event, conf, cloud, now);
    QuerySelectsNewest(cloud[TableRef(conf.region, conf.tableName)], f.uri, Iso(now));
  }

  /** A CloudFront request whose uri has a row in force is forwarded with
      the uri replaced, and nothing is reported. */
  lemma EdgeRequestRewritten(request: map<string, Json>, uri: string, conf: Conf, cloud: Cloud, now: Instant, row: Item, key: string)
    requires UriKey in request && request[UriKey] == JStr(uri)
    requires TableRef(conf.region, conf.tableName) in cloud
    requires Query(cloud[TableRef(conf.region, conf.tableName)], uri, Iso(now)) == [row]
    requires row.objectKey == Some(S(key))
    ensures Handle(EdgeEvent(JObj(request)), conf, cloud, now)
            == Run(Rewritten(request[UriKey := JStr("/" + key)]), [], Queried, false)
  {
  }

  /** A CloudFront request whose uri has no row in force gets the 404 object,
      and nothing is reported. */
  lemma EdgeRequestNotFound(request: map<string, Json>, uri: string, conf: Conf, cloud: Cloud, now: Instant)
    requires UriKey in request && request[UriKey] == JStr(uri)
    requires TableRef(conf.region, conf.tableName) in cloud
    requires Query(cloud[TableRef(conf.region, conf.tableName)], uri, Iso(now)) == []
    ensures Handle(EdgeEvent(JObj(request)), conf, cloud, now) == Run(NotFound404, [], Queried, false)
  {
  }

  /** A pipeline job whose uri has a row in force is answered with the
      rewritten request and reported as a success naming the new uri. */
  lemma PipelineJobRewritten(id: Json, uri: string, conf: Conf, cloud: Cloud, now: Instant, row: Item, key: string)
    requires TableRef(conf.region, conf.tableName) in cloud
    requires Query(cloud[TableRef(conf.region, conf.tableName)], uri, Iso(now)) == [row]
    requires row.objectKey == Some(S(key))
    ensures Handle(PipelineEvent(id, JStr(uri)), conf, cloud, now)
            == Run(Rewritten(map[UriKey := JStr("/" + key)]), [JobSuccess(id, "Retrieved /" + key)], Queried, true)
  {
    var job, request := PipelineJob(id, JStr(uri)), map[UriKey := JStr(uri)];
    FetchPipelineEvent(id, uri, conf, cloud, now);
    assert request[UriKey := JStr("/" + key)] == map[UriKey := JStr("/" + key)];
    assert "Retrieved " + ("/" + key) == "Retrieved /" + key;
    assert SuccessReport(Some(job), "Retrieved /" + key) == Attempt([JobSuccess(id, "Retrieved /" + key)], None);
    assert Respond(Some(job), request, uri, [row])
        == Reply(Rewritten(map[UriKey := JStr("/" + key)]), [JobSuccess(id, "Retrieved /" + key)]);
  }

  /** A pipeline event reaches the query with its job, `{"uri": uri}` as
      the request, and the configured table's answer. */
  lemma FetchPipelineEvent(id: Json, uri: string, conf: Conf, cloud: Cloud, now: Instant)
    requires TableRef(conf.region, conf.tableName) in cloud
    ensures IsJob(Some(PipelineJob(id, JStr(uri)))) && At(PipelineJob(id, JStr(uri)), Key(IdKey)) == Success(id)
    ensures Fetch(PipelineEvent(id, JStr(uri)), conf, cloud, now)
            == Fetched(Some(PipelineJob(id, JStr(uri))), map[UriKey := JStr(uri)], uri,
                       Query(cloud[TableRef(conf.region, conf.tableName)], uri, Iso(now)))
  {
    ClassifyPipelineEvent(id, JStr(uri));
    assert At(PipelineJob(id, JStr(uri)), Key(IdKey)) == Success(id);
  }

  /** A pipeline job whose uri has no row in force gets the 404 object and
      is reported as a JobFailed failure naming the uri. */
  lemma PipelineJobNotFound(id: Json, uri: string, conf: Conf, cloud: Cloud, now: Instant)
    requires TableRef(conf.region, conf.tableName) in cloud
    requires Query(cloud[TableRef(conf.region, conf.tableName)], uri, Iso(now)) == []
    ensures Handle(PipelineEvent(id, JStr(uri)), conf, cloud, now)
            == Run(NotFound404, [JobFailure(id, JobFailed, Text("No item found for '" + uri + "'"))], Queried, true)
  {
    FetchPipelineEvent(id, uri, conf, cloud, now);
  }

  /** A query that raises (for instance an unknown table) is re-raised, and
      not reported to CodePipeline even for a job: the query is outside the
      `try`. */
  lemma QueryFailureIsRaisedUnreported(event: Json, conf: Conf, cloud: Cloud, now: Instant)
    requires Fetch(event, conf, cloud, now).Stopped? && Fetch(event, conf, cloud, now).stage == DbOpened
    ensures Handle(event, conf, cloud, now).outcome == Raised(Fetch(event, conf, cloud, now).error)
    ensures Handle(event, conf, cloud, now).sent == []
    ensures !Handle(event, conf, cloud, now).pipelineUsed
  {
  }

  // ---------------------------------------------------------------------
  // The clients

  /** A DynamoDB client, bound to a region when created. */
  class DbClient {
    const region: string

    constructor (region: string)
      ensures this.region == region
    {
      this.region := region;
    }
  }

  /** A CodePipeline client; `sent` is the job results put through it. */
  class PipelineClient {
    var sent: seq<Report>

    constructor ()
      ensures sent == []
    {
      sent := [];
    }

    method PutJobSuccessResult(jobId: Json, summary: string)
      modifies this
      ensures sent == old(sent) + [JobSuccess(jobId, summary)]
    {
      sent := sent + [JobSuccess(jobId, summary)];
    }

    method PutJobFailureResult(jobId: Json, failureType: string, message: Message)
      modifies this
      ensures sent == old(sent) + [JobFailure(jobId, failureType, message)]
    {
      sent := sent + [JobFailure(jobId, failureType, message)];
    }
  }

  /** `LambdaClient`: the handler and its three lazily created resources. */
  class LambdaClient {
    const confFile: string
    var conf: Option<Conf>
    var dbClient: DbClient?
    var pipelineClient: PipelineClient?

    /** The DynamoDB client was made from the configuration in force. */
    ghost predicate Valid()
      reads this
    {
      dbClient != null ==> conf.Some? && dbClient.region == conf.value.region
    }

    /** The job results this client has put to CodePipeline. */
    ghost function Sent(): seq<Report>
      reads this, pipelineClient
    {
      if pipelineClient == null then [] else pipelineClient.sent
    }

    constructor (confFile: string)
      ensures Valid()
      ensures this.confFile == confFile && conf == None && dbClient == null && pipelineClient == null
    {
      this.confFile := confFile;
      conf, dbClient, pipelineClient := None, null, null;
    }

    /** The `conf` property: the file's contents on first use, the same value after. */
    method GetConf(file: Conf) returns (c: Conf)
      modifies this`conf
      ensures old(conf).Some? ==> c == old(conf).value
      ensures old(conf).None? ==> c == file
      ensures conf == Some(c)
    {
      if conf.None? {
        conf := Some(file);
      }
      c := conf.value;
    }

    /** The `db_client` property: created once, in the configured region. */
    method GetDbClient(file: Conf) returns (db: DbClient)
      requires Valid()
      modifies this`conf, this`dbClient
      ensures Valid() && dbClient == db
      ensures conf == Some(old(conf).GetOr(file))
      ensures db.region == conf.value.region
      ensures old(dbClient) != null ==> db == old(dbClient)
      ensures old(dbClient) == null ==> fresh(db)
    {
      if dbClient == null {
        var c := GetConf(file);
        dbClient := new DbClient(c.region);
      }
      db := dbClient;
    }

    /** The `pipeline_client` property: created once, with nothing sent yet. */
    method GetPipelineClient() returns (p: PipelineClient)
      requires Valid()
      modifies this`pipelineClient
      ensures Valid() && pipelineClient == p
      ensures old(pipelineClient) != null ==> p == old(pipelineClient)
      ensures old(pipelineClient) == null ==> fresh(p) && p.sent == []
    {
      if pipelineClient == null {
        pipelineClient := new PipelineClient();
      }
      p := pipelineClient;
    }

    /** `report_success`: only a job is reported, and only through the pipeline client. */
    method ReportSuccess(job: Option<Json>, message: string) returns (err: Option<Error>)
      requires Valid()
      modifies this`pipelineClient, pipelineClient
      ensures Valid()
      ensures err == SuccessReport(job, message).error
      ensures Sent() == old(Sent()) + SuccessReport(job, message).sent
      ensures if IsJob(job) then pipelineClient != null else pipelineClient == old(pipelineClient)
      ensures old(pipelineClient) != null ==> pipelineClient == old(pipelineClient)
      ensures old(pipelineClient) == null && pipelineClient != null ==> fresh(pipelineClient)
    {
      err := None;
      if IsJob(job) {
        var p := GetPipelineClient();
        match At(job.value, Key(IdKey))
        case Success(id) => p.PutJobSuccessResult(id, message);
        case Failure(e) => err := Some(Access(e));
      }
    }

    /** `report_failure`: as `report_success`, with failure type "JobFailed". */
    method ReportFailure(job: Option<Json>, message: Message) returns (err: Option<Error>)
      requires Valid()
      modifies this`pipelineClient, pipelineClient
      ensures Valid()
      ensures err == FailureReport(job, message).error
      ensures Sent() == old(Sent()) + FailureReport(job, message).sent
      ensures if IsJob(job) then pipelineClient != null else pipelineClient == old(pipelineClient)
      ensures old(pipelineClient) != null ==> pipelineClient == old(pipelineClient)
      ensures old(pipelineClient) == null && pipelineClient != null ==> fresh(pipelineClient)
    {
      err := None;
      if IsJob(job) {
        var p := GetPipelineClient();
        match At(job.value, Key(IdKey))
        case Success(id) => p.PutJobFailureResult(id, JobFailed, message);
        case Failure(e) => err := Some(Access(e));
      }
    }

    /** The found / not-found branches of `handler`, once the query has answered. */
    method AnswerQuery(job: Option<Json>, request: map<string, Json>, uri: string, items: seq<Item>)
      returns (outcome: Outcome)
      requires Valid()
      modifies this`pipelineClient, pipelineClient
      ensures Valid()
      ensures outcome == Respond(job, request, uri, items).outcome
      ensures Sent() == old(Sent()) + Respond(job, request, uri, items).sent
      ensures if ReachesPipeline(job, items) then pipelineClient != null else pipelineClient == old(pipelineClient)
      ensures old(pipelineClient) != null ==> pipelineClient == old(pipelineClient)
      ensures old(pipelineClient) == null && pipelineClient != null ==> fresh(pipelineClient)
    {
      if items != [] {
        var item := items[0];
        var err: Error;
        var key := ObjectKey(item);
        if key.Success? {
          var newUri := "/" + key.value;
          var rewritten := request[UriKey := JStr(newUri)];
          var failed := ReportSuccess(job, "Retrieved " + newUri);
          if failed.None? {
            return Rewritten(rewritten);
          }
          err := failed.value;
        } else {
          err := key.error;
        }
        if item.hasBytes {
          return Raised(Unserialisable);
        }
        var again := ReportFailure(job, ProcessingError(item));
        outcome := Raised(again.GetOr(err));
      } else {
        var failed := ReportFailure(job, Text("No item found for '" + uri + "'"));
        outcome := if failed.Some? then Raised(failed.value) else NotFound404;
      }
    }

    /** `handler(event, context)`, with `file` the contents of the
        configuration file, `cloud` the DynamoDB tables and `now` the clock. */
    method Handler(event: Json, file: Conf, cloud: Cloud, now: Instant) returns (result: Result<Json, Error>)
      requires Valid()
      modifies this, pipelineClient
      ensures Valid()
      ensures result == Returned(Handle(event, old(conf).GetOr(file), cloud, now).outcome)
      ensures Sent() == old(Sent()) + Handle(event, old(conf).GetOr(file), cloud, now).sent
      ensures conf == if Handle(event, old(conf).GetOr(file), cloud, now).stage == Rejected
                      then old(conf) else Some(old(conf).GetOr(file))
      ensures var stage := Handle(event, old(conf).GetOr(file), cloud, now).stage;
              if stage == DbOpened || stage == Queried then dbClient != null else dbClient == old(dbClient)
      ensures if Handle(event, old(conf).GetOr(file), cloud, now).pipelineUsed
              then pipelineClient != null else pipelineClient == old(pipelineClient)
      ensures old(conf).Some? ==> conf == old(conf)
      ensures old(dbClient) != null ==> dbClient == old(dbClient)
      ensures old(pipelineClient) != null ==> pipelineClient == old(pipelineClient)
      ensures old(dbClient) == null && dbClient != null ==> fresh(dbClient)
      ensures old(pipelineClient) == null && pipelineClient != null ==> fresh(pipelineClient)
    {
      var classified := Classify(event);
      if classified.Failure? {
        return Failure(classified.error);
      }
      var job, request := classified.value.job, classified.value.request;
      var c := GetConf(file);
      var uri := At(request, Key(UriKey));
      if uri.Failure? {
        return Failure(Access(uri.error));
      }
      var db := GetDbClient(file);
      var queried := RunQuery(cloud, TableRef(db.region, c.tableName), uri.value, Iso(now));
      if queried.Failure? {
        return Failure(queried.error);
      }
      assert Fetch(event, c, cloud, now) == Fetched(job, request.fields, uri.value.s, queried.value);
      var outcome := AnswerQuery(job, request.fields, uri.value.s, queried.value);
      result := Returned(outcome);
    }
  }
}
