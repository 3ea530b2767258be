/**
 * What one run of the listener promises, stated on the calls it makes:
 * every handled job ends with exactly one notification, the job's status
 * goes from PROCESSING to exactly one of COMPLETED or FAILED, the batch is
 * sent at most once, and each way the job can fail is reported with the
 * exception's message.
 */
module PipelineProperties {
  import opened Wrappers
  import opened Decimals
  import opened BankTransactions
  import opened OfxParser
  import opened NotificationPayloads
  import opened CategorizationResponses
  import opened IngestionListener

  datatype Kind = StatusKind | DownloadKind | FetchKind | PredictKind | BatchKind | NotifyKind

  function KindOf(e: Effect): Kind {
    match e
    case StatusUpdate(_, _) => StatusKind
    case Download(_) => DownloadKind
    case FetchCategories(_) => FetchKind
    case Predict(_, _) => PredictKind
    case CreateBatch(_) => BatchKind
    case Notify(_, _, _) => NotifyKind
  }

  /** How many calls of kind `k` the trace holds. */
  function Count(effects: seq<Effect>, k: Kind): nat {
    if effects == [] then 0
    else Count(effects[..|effects| - 1], k) + (if KindOf(effects[|effects| - 1]) == k then 1 else 0)
  }

  lemma {:induction false} CountConcat(a: seq<Effect>, b: seq<Effect>, k: Kind)
    ensures Count(a + b, k) == Count(a, k) + Count(b, k)
    decreases |b|
  {
    if b != [] {
      assert (a + b)[..|a + b| - 1] == a + b[..|b| - 1];
      CountConcat(a, b[..|b| - 1], k);
    } else {
      assert a + b == a;
    }
  }

  /** The statuses the job is given, in order. */
  function Statuses(effects: seq<Effect>): seq<string> {
    if effects == [] then []
    else
      var e := effects[|effects| - 1];
      Statuses(effects[..|effects| - 1]) + (if e.StatusUpdate? then [e.request.status] else [])
  }

  lemma {:induction false} StatusesConcat(a: seq<Effect>, b: seq<Effect>)
    ensures Statuses(a + b) == Statuses(a) + Statuses(b)
    decreases |b|
  {
    if b != [] {
      var e := b[|b| - 1];
      assert (a + b)[..|a + b| - 1] == a + b[..|b| - 1];
      StatusesConcat(a, b[..|b| - 1]);
      ConcatAssoc(Statuses(a), Statuses(b[..|b| - 1]), if e.StatusUpdate? then [e.request.status] else []);
    } else {
      assert a + b == a;
    }
  }

  /** The request lists of the batch calls, in order. */
  function Batches(effects: seq<Effect>): seq<seq<CreateTransactionRequest>> {
    if effects == [] then []
    else
      var e := effects[|effects| - 1];
      Batches(effects[..|effects| - 1]) + (if e.CreateBatch? then [e.requests] else [])
  }

  lemma {:induction false} BatchesConcat(a: seq<Effect>, b: seq<Effect>)
    ensures Batches(a + b) == Batches(a) + Batches(b)
    decreases |b|
  {
    if b != [] {
      var e := b[|b| - 1];
      assert (a + b)[..|a + b| - 1] == a + b[..|b| - 1];
      BatchesConcat(a, b[..|b| - 1]);
      ConcatAssoc(Batches(a), Batches(b[..|b| - 1]), if e.CreateBatch? then [e.requests] else []);
    } else {
      assert a + b == a;
    }
  }

  /** Calls that are neither status updates nor notifications. */
  predicate Quiet(effects: seq<Effect>) {
    forall i | 0 <= i < |effects| :: !effects[i].Notify? && !effects[i].StatusUpdate?
  }

  lemma {:induction false} QuietCounts(effects: seq<Effect>)
    requires Quiet(effects)
    ensures Count(effects, NotifyKind) == 0 && Statuses(effects) == []
    decreases |effects|
  {
    if effects != [] {
      QuietCounts(effects[..|effects| - 1]);
    }
  }

  /** A block that ends with a final status and a notification. */
  lemma {:induction false} EndingShape(job: Job, before: seq<Effect>, status: string, summary: Option<Summary>,
                                       error: Option<string>, notice: Effect)
    requires Quiet(before)
    requires notice.Notify?
    ensures var effects := before + UpdateJobStatus(job.jobId, status, summary, error) + [notice];
      && effects[|effects| - 1].Notify?
      && Count(effects, NotifyKind) == 1
      && Statuses(effects) == (if job.jobId.Some? then [status] else [])
  {
    var done := UpdateJobStatus(job.jobId, status, summary, error);
    QuietCounts(before);
    CountConcat(before, done, NotifyKind);
    CountConcat(before + done, [notice], NotifyKind);
    StatusesConcat(before, done);
    StatusesConcat(before + done, [notice]);
  }

  /** The shape of a finished or failed guarded block. */
  predicate Shaped(job: Job, a: Attempt) {
    && (a.Failed? ==> Quiet(a.effects))
    && (a.Finished? ==>
          && |a.effects| > 0 && a.effects[|a.effects| - 1].Notify?
          && Count(a.effects, NotifyKind) == 1
          && a.effects[|a.effects| - 1].payload.errorCode != Some(CodeInternalError)
          && Statuses(a.effects) == (if job.jobId.Some? then [StatusCompleted] else []))
  }

  /** The guarded block makes no status call and sends no notification until it ends normally, and then ends with one of each. */
  lemma {:induction false} ProcessShape(job: Job, script: Script, env: Env)
    ensures Shaped(job, Process(job, script, env))
  {
    if !script.download.Thrown? && script.content.Some? {
      AfterParseShape(job, script, env, [Download(job.fileKey)], ParseSpec(script.content.value, env.dateOk));
    }
  }

  lemma {:induction false} AfterParseShape(job: Job, script: Script, env: Env, before: seq<Effect>, parsed: seq<TxRecord>)
    requires Quiet(before)
    ensures Shaped(job, AfterParse(job, script, env, before, parsed))
  {
    if parsed == [] {
      assert CodeNoTransactions[0] != CodeInternalError[0];
      EndingShape(job, before, StatusCompleted, Some(EmptySummary), None,
                  SendError(job.profile, job.fileName, job.account.name, CodeNoTransactions, MessageNoTransactions));
    } else {
      var fetched := before + [FetchCategories(job.profile.id)];
      var categories := FetchCategoriesSafely(script.categories);
      if categories == [] {
        PersistShape(job, script, env, fetched, parsed, 0);
      } else {
        var predicted := PredictionMap(script.prediction);
        PersistShape(job, script, env, fetched + [Predict(Dedup(DescriptionsOf(parsed)), categories)],
                     Merge(parsed, predicted), MatchCount(parsed, predicted));
      }
    }
  }

  lemma {:induction false} PersistShape(job: Job, script: Script, env: Env, before: seq<Effect>, recs: seq<TxRecord>, ai: nat)
    requires Quiet(before)
    ensures Shaped(job, Persist(job, script, env, before, recs, ai))
  {
    var built := BuildRequests(recs, job.owner, env);
    if built.Ok? && !script.batch.Thrown? {
      EndingShape(job, before + [CreateBatch(built.value)], StatusCompleted, Some(DoneSummary(|recs|, ai)), None,
                  SendSuccess(job.profile, job.fileName, job.account.name));
    }
  }

  /** A handled event makes the first status call and then runs the guarded block and its `catch`. */
  lemma {:induction false} RunHandled(event: IngestionEvent, script: Script, env: Env)
    requires event.payload.Some? && Dereferenceable(event.payload.value)
    ensures var job := JobOf(event.payload.value);
      Run(event, script, env) == (Handled, Start(job) + Settle(job, Process(job, script, env)))
  {
  }

  /** The calls of a handled job, from the first status call on, for any well-shaped guarded block. */
  lemma {:induction false} StartThenSettle(job: Job, a: Attempt)
    requires Shaped(job, a)
    ensures var effects := Start(job) + Settle(job, a);
      && |effects| > 0 && effects[|effects| - 1].Notify?
      && Count(effects, NotifyKind) == 1
    ensures var effects := Start(job) + Settle(job, a);
      var failed := effects[|effects| - 1].payload.errorCode == Some(CodeInternalError);
      Statuses(effects) ==
        if job.jobId.None? then []
        else [StatusProcessing, if failed then StatusJobFailed else StatusCompleted]
  {
    var start := Start(job);
    var rest := Settle(job, a);
    SettleShape(job, a);
    CountConcat(start, rest, NotifyKind);
    StatusesConcat(start, rest);
    assert (start + rest)[|start + rest| - 1] == rest[|rest| - 1];
  }

  /** The calls of a handled job, from the first status call on, as `HandledJobReportsOnce` states them. */
  lemma {:induction false} JobReportsOnce(job: Job, script: Script, env: Env)
    ensures var effects := Start(job) + Settle(job, Process(job, script, env));
      && |effects| > 0 && effects[|effects| - 1].Notify?
      && Count(effects, NotifyKind) == 1
    ensures var effects := Start(job) + Settle(job, Process(job, script, env));
      var failed := effects[|effects| - 1].payload.errorCode == Some(CodeInternalError);
      Statuses(effects) ==
        if job.jobId.None? then []
        else [StatusProcessing, if failed then StatusJobFailed else StatusCompleted]
  {
    ProcessShape(job, script, env);
    StartThenSettle(job, Process(job, script, env));
  }

  /**
   * A handled job sends exactly one notification, as its last call. A job
   * with an id is marked PROCESSING and then exactly once COMPLETED or
   * FAILED, FAILED exactly when the notification reports an internal error;
   * a job without an id is never marked.
   */
  lemma {:induction false} HandledJobReportsOnce(event: IngestionEvent, script: Script, env: Env)
    requires Run(event, script, env).0 == Handled
    ensures var effects := Run(event, script, env).1;
      && |effects| > 0 && effects[|effects| - 1].Notify?
      && Count(effects, NotifyKind) == 1
    ensures var effects := Run(event, script, env).1;
      var failed := effects[|effects| - 1].payload.errorCode == Some(CodeInternalError);
      Statuses(effects) ==
        if event.payload.value.jobId.None? then []
        else [StatusProcessing, if failed then StatusJobFailed else StatusCompleted]
  {
    RunHandled(event, script, env);
    JobReportsOnce(JobOf(event.payload.value), script, env);
  }

  /** After the `catch` block, a failed attempt too ends with its status and its notification. */
  lemma {:induction false} SettleShape(job: Job, a: Attempt)
    requires Shaped(job, a)
    ensures var effects := Settle(job, a);
      && |effects| > 0 && effects[|effects| - 1].Notify?
      && Count(effects, NotifyKind) == 1
      && var failed := effects[|effects| - 1].payload.errorCode == Some(CodeInternalError);
         Statuses(effects) == if job.jobId.None? then [] else [if failed then StatusJobFailed else StatusCompleted]
  {
    if a.Failed? {
      EndingShape(job, a.effects, StatusJobFailed, None, Some(InternalErrorPrefix + a.message),
                  SendError(job.profile, job.fileName, job.account.name, CodeInternalError, ProcessingErrorPrefix + a.message));
    }
  }

  /** A message that is ignored, or that fails before the guarded block, makes no call at all. */
  lemma {:induction false} UnhandledMakesNoCalls(event: IngestionEvent, script: Script, env: Env)
    ensures Run(event, script, env).0 == Ignored <==> event.payload.None?
    ensures Run(event, script, env).0 == Escaped <==> event.payload.Some? && !Dereferenceable(event.payload.value)
    ensures Run(event, script, env).0 != Handled ==> Run(event, script, env).1 == []
  {
  }

  // ---------------------------------------------------------------------------
  // Failures
  // ---------------------------------------------------------------------------

  /** The calls of the `catch` block for an exception with `message`. */
  function FailureReport(job: Job, message: string): seq<Effect> {
    UpdateJobStatus(job.jobId, StatusJobFailed, None, Some(InternalErrorPrefix + message))
    + [SendError(job.profile, job.fileName, job.account.name, CodeInternalError, ProcessingErrorPrefix + message)]
  }

  /** A job that fails after calls without a batch has sent no batch at all. */
  lemma {:induction false} ReportedWithoutBatch(job: Job, calls: seq<Effect>, message: string)
    requires forall i | 0 <= i < |calls| :: !calls[i].CreateBatch?
    ensures Batches(Start(job) + calls + FailureReport(job, message)) == []
  {
    NoBatches(Start(job));
    NoBatches(calls);
    NoBatches(FailureReport(job, message));
    BatchesConcat(Start(job), calls);
    BatchesConcat(Start(job) + calls, FailureReport(job, message));
  }

  /** The calls made before the download. */
  function Start(job: Job): seq<Effect> {
    UpdateJobStatus(job.jobId, StatusProcessing, Some(StartSummary), None)
  }

  /** A failed download is reported with the storage exception's message, and nothing else is called. */
  lemma {:induction false} DownloadFailureReported(event: IngestionEvent, script: Script, env: Env)
    requires event.payload.Some? && Dereferenceable(event.payload.value)
    requires script.download.Thrown?
    ensures var job := JobOf(event.payload.value);
      Run(event, script, env) == (Handled, Start(job) + [Download(job.fileKey)] + FailureReport(job, script.download.message))
  {
    var job := JobOf(event.payload.value);
    var status := UpdateJobStatus(job.jobId, StatusJobFailed, None, Some(InternalErrorPrefix + script.download.message));
    var notice := [SendError(job.profile, job.fileName, job.account.name, CodeInternalError, ProcessingErrorPrefix + script.download.message)];
    ConcatAssoc([Download(job.fileKey)], status, notice);
    ConcatAssoc(Start(job), [Download(job.fileKey)], FailureReport(job, script.download.message));
  }

  /** A stream that cannot be read is reported with the parser's own message. */
  lemma {:induction false} UnreadableFileReported(event: IngestionEvent, script: Script, env: Env)
    requires event.payload.Some? && Dereferenceable(event.payload.value)
    requires script.download.Done? && script.content.None?
    ensures var job := JobOf(event.payload.value);
      Run(event, script, env) == (Handled, Start(job) + [Download(job.fileKey)] + FailureReport(job, ReadFailureMessage))
  {
    var job := JobOf(event.payload.value);
    var status := UpdateJobStatus(job.jobId, StatusJobFailed, None, Some(InternalErrorPrefix + ReadFailureMessage));
    var notice := [SendError(job.profile, job.fileName, job.account.name, CodeInternalError, ProcessingErrorPrefix + ReadFailureMessage)];
    ConcatAssoc([Download(job.fileKey)], status, notice);
    ConcatAssoc(Start(job), [Download(job.fileKey)], FailureReport(job, ReadFailureMessage));
  }

  /** The calls of a job whose statement holds no transaction, from the first status call on. */
  lemma {:induction false} EmptyJobCompletes(job: Job, script: Script, env: Env)
    requires script.download.Done? && script.content.Some?
    requires ParseSpec(script.content.value, env.dateOk) == []
    ensures Start(job) + Settle(job, Process(job, script, env))
      == Start(job) + [Download(job.fileKey)]
         + UpdateJobStatus(job.jobId, StatusCompleted, Some(EmptySummary), None)
         + [SendError(job.profile, job.fileName, job.account.name, CodeNoTransactions, MessageNoTransactions)]
  {
    var done := UpdateJobStatus(job.jobId, StatusCompleted, Some(EmptySummary), None);
    var notice := [SendError(job.profile, job.fileName, job.account.name, CodeNoTransactions, MessageNoTransactions)];
    ConcatAssoc(Start(job), [Download(job.fileKey)] + done, notice);
    ConcatAssoc(Start(job), [Download(job.fileKey)], done);
  }

  /**
   * A statement without a transaction completes the job with the empty
   * summary and tells the user NO_TRANSACTIONS; no category is fetched and
   * no batch is sent.
   */
  lemma {:induction false} EmptyStatementCompletes(event: IngestionEvent, script: Script, env: Env)
    requires event.payload.Some? && Dereferenceable(event.payload.value)
    requires script.download.Done? && script.content.Some?
    requires ParseSpec(script.content.value, env.dateOk) == []
    ensures var job := JobOf(event.payload.value);
      Run(event, script, env) == (Handled,
        Start(job) + [Download(job.fileKey)]
        + UpdateJobStatus(job.jobId, StatusCompleted, Some(EmptySummary), None)
        + [SendError(job.profile, job.fileName, job.account.name, CodeNoTransactions, MessageNoTransactions)])
  {
    RunHandled(event, script, env);
    EmptyJobCompletes(JobOf(event.payload.value), script, env);
  }

  // ---------------------------------------------------------------------------
  // Successful jobs
  // ---------------------------------------------------------------------------

  /** A trace without a batch call. */
  lemma {:induction false} NoBatches(effects: seq<Effect>)
    requires forall i | 0 <= i < |effects| :: !effects[i].CreateBatch?
    ensures Batches(effects) == []
    decreases |effects|
  {
    if effects != [] {
      NoBatches(effects[..|effects| - 1]);
    }
  }

  /**
   * The prediction items the job acts on: none when the user has no
   * category (the service is not called) or when the call fails or answers
   * null.
   */
  function OfferedItems(script: Script): seq<CategorizationItem> {
    if FetchCategoriesSafely(script.categories) == [] then []
    else
      match script.prediction
      case PredictionFailed => []
      case Predicted(None) => []
      case Predicted(Some(response)) => GetCategorizationsSafe(response)
  }

  /** The request carries the transaction's description, posting stamp, statement id and signed amount. */
  predicate Mirrors(q: CreateTransactionRequest, rec: TxRecord) {
    && q.description == rec.description
    && q.date == rec.postedAt
    && q.originalStatementId == rec.fitId
    && (q.transactionType == Expense <==> IsNegative(rec.amount))
    && Value(rec.amount) == (if q.transactionType == Expense then -Value(q.amount) else Value(q.amount))
  }

  /**
   * Every identifier `toCreateRequest` could convert for a job is a UUID: the
   * profile and account ids, each fallback category id present, and the
   * category id of every item that is the first prediction for its
   * description (the only ones the merge keeps). A job converts only the
   * categories its transactions end up carrying, so this asks for more.
   */
  predicate IdsValid(owner: Owner, items: seq<CategorizationItem>, env: Env) {
    && env.uuid(owner.profileId).Ok?
    && env.uuid(owner.bankAccountId).Ok?
    && (owner.fallbackIncomeId.Some? ==> env.uuid(owner.fallbackIncomeId.value).Ok?)
    && (owner.fallbackExpenseId.Some? ==> env.uuid(owner.fallbackExpenseId.value).Ok?)
    && forall i | 0 <= i < |items| && FirstPredictionAt(items, i) :: env.uuid(items[i].categoryId.value).Ok?
  }

  /** `q` carries `id` converted to a UUID, or no category when `id` is absent. */
  predicate CarriesCategory(q: CreateTransactionRequest, id: Option<string>, env: Env) {
    if id.Some? then q.categoryId.Some? && env.uuid(id.value) == Ok(q.categoryId.value) else q.categoryId.None?
  }

  /**
   * The category a request for `rec` carries: the first prediction for its
   * exact description, else the fallback for its direction.
   */
  ghost predicate CategoryChosen(q: CreateTransactionRequest, rec: TxRecord, items: seq<CategorizationItem>, owner: Owner, env: Env) {
    if exists i | 0 <= i < |items| :: Predicts(items[i], Some(rec.description)) then
      exists i: nat | FirstPredictionAt(items, i) && items[i].description == Some(rec.description) ::
        CarriesCategory(q, items[i].categoryId, env)
    else
      CarriesCategory(q, if IsNegative(rec.amount) then owner.fallbackExpenseId else owner.fallbackIncomeId, env)
  }

  /** The request built for one parsed transaction after categorisation. */
  lemma {:induction false} RequestForTransaction(rec: TxRecord, items: seq<CategorizationItem>, owner: Owner, env: Env)
    requires rec.categoryId.None?
    requires IdsValid(owner, items, env)
    ensures ToCreateRequest(Categorized(rec, PredictedMap(items)), owner, env).Ok?
    ensures var q := ToCreateRequest(Categorized(rec, PredictedMap(items)), owner, env).value;
      Mirrors(q, rec) && CategoryChosen(q, rec, items, owner, env)
  {
    CategoryComesFromFirstPrediction(rec, items);
  }

  /** The end of a job whose requests can all be built and whose batch call returns. */
  lemma {:induction false} PersistFinishes(job: Job, script: Script, env: Env, before: seq<Effect>, recs: seq<TxRecord>, ai: nat)
    requires script.batch.Done?
    requires BuildRequests(recs, job.owner, env).Ok?
    requires forall i | 0 <= i < |before| :: !before[i].CreateBatch?
    ensures var a := Persist(job, script, env, before, recs, ai);
      && a.Finished?
      && Batches(a.effects) == [BuildRequests(recs, job.owner, env).value]
      && |a.effects| >= 2
      && a.effects[|a.effects| - 1] == SendSuccess(job.profile, job.fileName, job.account.name)
      && (job.jobId.Some? ==>
            a.effects[|a.effects| - 2] ==
              StatusUpdate(job.jobId.value, UpdateIngestionJobRequest(StatusCompleted, Some(DoneSummary(|recs|, ai)), None)))
  {
    var qs := BuildRequests(recs, job.owner, env).value;
    var done := UpdateJobStatus(job.jobId, StatusCompleted, Some(DoneSummary(|recs|, ai)), None);
    var notice := [SendSuccess(job.profile, job.fileName, job.account.name)];
    NoBatches(before);
    BatchesConcat(before, [CreateBatch(qs)]);
    BatchesConcat(before + [CreateBatch(qs)], done);
    BatchesConcat(before + [CreateBatch(qs)] + done, notice);
  }

  /** The calls before the batch of a job whose file parses to some transactions. */
  function CallsBeforeBatch(job: Job, script: Script, parsed: seq<TxRecord>): (r: seq<Effect>)
    ensures forall i | 0 <= i < |r| :: !r[i].CreateBatch?
  {
    var categories := FetchCategoriesSafely(script.categories);
    [Download(job.fileKey), FetchCategories(job.profile.id)]
    + (if categories == [] then [] else [Predict(Dedup(DescriptionsOf(parsed)), categories)])
  }

  /** Once the file holds transactions, the job categorises them with the offered items and persists them. */
  lemma {:induction false} AfterParseReachesPersist(job: Job, script: Script, env: Env, parsed: seq<TxRecord>)
    requires parsed != []
    ensures var m := PredictedMap(OfferedItems(script));
      AfterParse(job, script, env, [Download(job.fileKey)], parsed)
        == Persist(job, script, env, CallsBeforeBatch(job, script, parsed), Merge(parsed, m), MatchCount(parsed, m))
  {
    var categories := FetchCategoriesSafely(script.categories);
    var m := PredictedMap(OfferedItems(script));
    var fetched := [Download(job.fileKey)] + [FetchCategories(job.profile.id)];
    if categories == [] {
      assert m == map[];
      MergeWithoutPredictions(parsed);
      assert CallsBeforeBatch(job, script, parsed) == fetched;
    } else {
      assert m == PredictionMap(script.prediction);
      assert CallsBeforeBatch(job, script, parsed) == fetched + [Predict(Dedup(DescriptionsOf(parsed)), categories)];
    }
  }

  /** Every parsed transaction yields its request once every identifier is valid. */
  lemma {:induction false} RequestsForParsed(parsed: seq<TxRecord>, items: seq<CategorizationItem>, owner: Owner, env: Env)
    requires forall t | t in parsed :: t.categoryId.None?
    requires IdsValid(owner, items, env)
    ensures var r := BuildRequests(Merge(parsed, PredictedMap(items)), owner, env);
      && r.Ok? && |r.value| == |parsed|
      && forall k | 0 <= k < |parsed| ::
           Mirrors(r.value[k], parsed[k]) && CategoryChosen(r.value[k], parsed[k], items, owner, env)
  {
    var recs := Merge(parsed, PredictedMap(items));
    forall k | 0 <= k < |parsed|
      ensures ToCreateRequest(recs[k], owner, env).Ok?
      ensures Mirrors(ToCreateRequest(recs[k], owner, env).value, parsed[k])
      ensures CategoryChosen(ToCreateRequest(recs[k], owner, env).value, parsed[k], items, owner, env)
    {
      assert parsed[k] in parsed;
      RequestForTransaction(parsed[k], items, owner, env);
    }
  }

  /** The guarded block of a job whose file holds transactions, whose identifiers are valid and whose batch call returns. */
  lemma {:induction false} ProcessSucceeds(job: Job, script: Script, env: Env)
    requires script.download.Done? && script.content.Some? && script.batch.Done?
    requires ParseSpec(script.content.value, env.dateOk) != []
    requires IdsValid(job.owner, OfferedItems(script), env)
    ensures var parsed := ParseSpec(script.content.value, env.dateOk);
      var a := Process(job, script, env);
      && a.Finished?
      && |Batches(a.effects)| == 1
      && |Batches(a.effects)[0]| == |parsed|
      && (forall i | 0 <= i < |parsed| ::
            && Mirrors(Batches(a.effects)[0][i], parsed[i])
            && CategoryChosen(Batches(a.effects)[0][i], parsed[i], OfferedItems(script), job.owner, env))
      && |a.effects| >= 2
      && a.effects[|a.effects| - 1] == SendSuccess(job.profile, job.fileName, job.account.name)
      && (job.jobId.Some? ==>
            a.effects[|a.effects| - 2] ==
              StatusUpdate(job.jobId.value, UpdateIngestionJobRequest(StatusCompleted,
                Some(DoneSummary(|parsed|, MatchCount(parsed, PredictedMap(OfferedItems(script))))), None)))
  {
    var content := script.content.value;
    var parsed := ParseSpec(content, env.dateOk);
    var m := PredictedMap(OfferedItems(script));
    AfterParseReachesPersist(job, script, env, parsed);
    ParseSpecEmittable(content, env.dateOk);
    RequestsForParsed(parsed, OfferedItems(script), job.owner, env);
    PersistFinishes(job, script, env, CallsBeforeBatch(job, script, parsed), Merge(parsed, m), MatchCount(parsed, m));
  }

  /** The calls of such a job, from the first status call on. */
  lemma {:induction false} JobSucceeds(job: Job, script: Script, env: Env)
    requires script.download.Done? && script.content.Some? && script.batch.Done?
    requires ParseSpec(script.content.value, env.dateOk) != []
    requires IdsValid(job.owner, OfferedItems(script), env)
    ensures var parsed := ParseSpec(script.content.value, env.dateOk);
      var effects := Start(job) + Settle(job, Process(job, script, env));
      && |Batches(effects)| == 1
      && |Batches(effects)[0]| == |parsed|
      && (forall i | 0 <= i < |parsed| ::
            && Mirrors(Batches(effects)[0][i], parsed[i])
            && CategoryChosen(Batches(effects)[0][i], parsed[i], OfferedItems(script), job.owner, env))
      && |effects| >= 2
      && effects[|effects| - 1] == SendSuccess(job.profile, job.fileName, job.account.name)
      && (job.jobId.Some? ==>
            effects[|effects| - 2] ==
              StatusUpdate(job.jobId.value, UpdateIngestionJobRequest(StatusCompleted,
                Some(DoneSummary(|parsed|, MatchCount(parsed, PredictedMap(OfferedItems(script))))), None)))
  {
    ProcessSucceeds(job, script, env);
    var a := Process(job, script, env);
    NoBatches(Start(job));
    BatchesConcat(Start(job), a.effects);
    var effects := Start(job) + a.effects;
    assert effects[|effects| - 1] == a.effects[|a.effects| - 1];
    assert effects[|effects| - 2] == a.effects[|a.effects| - 2];
  }

  /**
   * A job whose file parses to at least one transaction, whose identifiers
   * are all valid and whose batch call returns: exactly one batch is sent,
   * with one request per parsed transaction in statement order, each
   * carrying its transaction's fields and the category the prediction or
   * the fallback gives it; the job is completed with the number of
   * transactions and the number the prediction categorised, and the user is
   * told of the success.
   */
  lemma {:induction false} SuccessfulJob(event: IngestionEvent, script: Script, env: Env)
    requires event.payload.Some? && Dereferenceable(event.payload.value)
    requires script.download.Done? && script.content.Some? && script.batch.Done?
    requires ParseSpec(script.content.value, env.dateOk) != []
    requires IdsValid(JobOf(event.payload.value).owner, OfferedItems(script), env)
    ensures var job := JobOf(event.payload.value);
      var parsed := ParseSpec(script.content.value, env.dateOk);
      var effects := Run(event, script, env).1;
      && |Batches(effects)| == 1
      && |Batches(effects)[0]| == |parsed|
      && (forall i | 0 <= i < |parsed| ::
            && Mirrors(Batches(effects)[0][i], parsed[i])
            && CategoryChosen(Batches(effects)[0][i], parsed[i], OfferedItems(script), job.owner, env))
      && |effects| >= 2
      && effects[|effects| - 1] == SendSuccess(job.profile, job.fileName, job.account.name)
      && (job.jobId.Some? ==>
            effects[|effects| - 2] ==
              StatusUpdate(job.jobId.value, UpdateIngestionJobRequest(StatusCompleted,
                Some(DoneSummary(|parsed|, MatchCount(parsed, PredictedMap(OfferedItems(script))))), None)))
  {
    RunHandled(event, script, env);
    JobSucceeds(JobOf(event.payload.value), script, env);
  }

  // ---------------------------------------------------------------------------
  // Degraded categorisation and late failures
  // ---------------------------------------------------------------------------

  /**
   * When the user has no category (or the call for them fails), the
   * prediction service is not called; when it is called but fails or
   * predicts nothing, no transaction changes. Either way the job persists
   * the parsed transactions as they are and reports no AI categorisation.
   */
  lemma {:induction false} DegradedCategorisation(job: Job, script: Script, env: Env, before: seq<Effect>, parsed: seq<TxRecord>)
    requires parsed != []
    requires OfferedItems(script) == []
    ensures var categories := FetchCategoriesSafely(script.categories);
      AfterParse(job, script, env, before, parsed)
        == Persist(job, script, env,
                   before + [FetchCategories(job.profile.id)]
                   + (if categories == [] then [] else [Predict(Dedup(DescriptionsOf(parsed)), categories)]),
                   parsed, 0)
  {
    var categories := FetchCategoriesSafely(script.categories);
    var fetched := before + [FetchCategories(job.profile.id)];
    if categories == [] {
      assert fetched + [] == fetched;
    } else {
      assert PredictionMap(script.prediction) == map[] by {
        if script.prediction.Predicted? && script.prediction.response.Some? {
          assert GetCategorizationsSafe(script.prediction.response.value) == [];
        }
      }
      MergeWithoutPredictions(parsed);
    }
  }

  /**
   * Mapping stops at the first transaction; when the profile id is not a
   * UUID that transaction already throws, with the profile id's message.
   */
  lemma {:induction false} InvalidProfileFailsMapping(recs: seq<TxRecord>, owner: Owner, env: Env)
    requires recs != []
    requires env.uuid(owner.profileId).Err?
    ensures BuildRequests(recs, owner, env) == Err(env.uuid(owner.profileId).error)
  {
    assert ToCreateRequest(recs[0], owner, env) == Err(env.uuid(owner.profileId).error);
  }

  /** A job one of whose transactions cannot be mapped fails with that exception, before any batch call. */
  lemma {:induction false} ProcessFailsOnMapping(job: Job, script: Script, env: Env)
    requires script.download.Done? && script.content.Some?
    requires ParseSpec(script.content.value, env.dateOk) != []
    requires BuildRequests(Merge(ParseSpec(script.content.value, env.dateOk), PredictedMap(OfferedItems(script))), job.owner, env).Err?
    ensures var parsed := ParseSpec(script.content.value, env.dateOk);
      Process(job, script, env)
        == Failed(CallsBeforeBatch(job, script, parsed),
                  BuildRequests(Merge(parsed, PredictedMap(OfferedItems(script))), job.owner, env).error)
  {
    var parsed := ParseSpec(script.content.value, env.dateOk);
    AfterParseReachesPersist(job, script, env, parsed);
  }

  /** The requests of a job whose identifiers are valid can all be built, one per parsed transaction. */
  lemma {:induction false} ValidIdsBuildRequests(job: Job, script: Script, env: Env)
    requires script.content.Some?
    requires IdsValid(job.owner, OfferedItems(script), env)
    ensures var parsed := ParseSpec(script.content.value, env.dateOk);
      var r := BuildRequests(Merge(parsed, PredictedMap(OfferedItems(script))), job.owner, env);
      r.Ok? && |r.value| == |parsed|
  {
    var parsed := ParseSpec(script.content.value, env.dateOk);
    ParseSpecEmittable(script.content.value, env.dateOk);
    RequestsForParsed(parsed, OfferedItems(script), job.owner, env);
  }

  /** A job whose requests can all be built but whose batch call throws fails after that one call. */
  lemma {:induction false} ProcessBatchRejected(job: Job, script: Script, env: Env)
    requires script.download.Done? && script.content.Some? && script.batch.Thrown?
    requires ParseSpec(script.content.value, env.dateOk) != []
    requires BuildRequests(Merge(ParseSpec(script.content.value, env.dateOk), PredictedMap(OfferedItems(script))), job.owner, env).Ok?
    ensures var parsed := ParseSpec(script.content.value, env.dateOk);
      var r := BuildRequests(Merge(parsed, PredictedMap(OfferedItems(script))), job.owner, env);
      Process(job, script, env) == Failed(CallsBeforeBatch(job, script, parsed) + [CreateBatch(r.value)], script.batch.message)
  {
    var parsed := ParseSpec(script.content.value, env.dateOk);
    AfterParseReachesPersist(job, script, env, parsed);
  }

  /**
   * A transaction that cannot be mapped (its profile, account or category id
   * is not a UUID) fails the job with the first such exception's message: no
   * batch is sent, the job is marked FAILED and the user gets one
   * INTERNAL_ERROR notification.
   */
  lemma {:induction false} MappingFailureReported(event: IngestionEvent, script: Script, env: Env)
    requires event.payload.Some? && Dereferenceable(event.payload.value)
    requires script.download.Done? && script.content.Some?
    requires ParseSpec(script.content.value, env.dateOk) != []
    requires BuildRequests(Merge(ParseSpec(script.content.value, env.dateOk), PredictedMap(OfferedItems(script))),
                           JobOf(event.payload.value).owner, env).Err?
    ensures var job := JobOf(event.payload.value);
      var parsed := ParseSpec(script.content.value, env.dateOk);
      var effects := Run(event, script, env).1;
      && effects == Start(job) + CallsBeforeBatch(job, script, parsed)
                    + FailureReport(job, BuildRequests(Merge(parsed, PredictedMap(OfferedItems(script))), job.owner, env).error)
      && Batches(effects) == []
  {
    var job := JobOf(event.payload.value);
    var parsed := ParseSpec(script.content.value, env.dateOk);
    var calls := CallsBeforeBatch(job, script, parsed);
    var message := BuildRequests(Merge(parsed, PredictedMap(OfferedItems(script))), job.owner, env).error;
    RunHandled(event, script, env);
    ProcessFailsOnMapping(job, script, env);
    var status := UpdateJobStatus(job.jobId, StatusJobFailed, None, Some(InternalErrorPrefix + message));
    var notice := [SendError(job.profile, job.fileName, job.account.name, CodeInternalError, ProcessingErrorPrefix + message)];
    ConcatAssoc(calls, status, notice);
    ConcatAssoc(Start(job), calls, FailureReport(job, message));
    ReportedWithoutBatch(job, calls, message);
  }

  /** The calls of a job whose batch call throws, from the first status call on. */
  lemma {:induction false} JobBatchRejected(job: Job, script: Script, env: Env)
    requires script.download.Done? && script.content.Some? && script.batch.Thrown?
    requires ParseSpec(script.content.value, env.dateOk) != []
    requires BuildRequests(Merge(ParseSpec(script.content.value, env.dateOk), PredictedMap(OfferedItems(script))), job.owner, env).Ok?
    ensures var parsed := ParseSpec(script.content.value, env.dateOk);
      var r := BuildRequests(Merge(parsed, PredictedMap(OfferedItems(script))), job.owner, env);
      Start(job) + Settle(job, Process(job, script, env))
           == Start(job) + CallsBeforeBatch(job, script, parsed) + [CreateBatch(r.value)] + FailureReport(job, script.batch.message)
  {
    var parsed := ParseSpec(script.content.value, env.dateOk);
    var r := BuildRequests(Merge(parsed, PredictedMap(OfferedItems(script))), job.owner, env);
    var sent := CallsBeforeBatch(job, script, parsed) + [CreateBatch(r.value)];
    var message := script.batch.message;
    ProcessBatchRejected(job, script, env);
    var status := UpdateJobStatus(job.jobId, StatusJobFailed, None, Some(InternalErrorPrefix + message));
    var notice := [SendError(job.profile, job.fileName, job.account.name, CodeInternalError, ProcessingErrorPrefix + message)];
    ConcatAssoc(sent, status, notice);
    ConcatAssoc(Start(job), sent, FailureReport(job, message));
    ConcatAssoc(Start(job), CallsBeforeBatch(job, script, parsed), [CreateBatch(r.value)]);
  }

  /**
   * A batch call that throws fails the job with the client's message after
   * exactly that one batch, which holds one request per parsed transaction.
   */
  lemma {:induction false} BatchRejectedReported(event: IngestionEvent, script: Script, env: Env)
    requires event.payload.Some? && Dereferenceable(event.payload.value)
    requires script.download.Done? && script.content.Some? && script.batch.Thrown?
    requires ParseSpec(script.content.value, env.dateOk) != []
    requires IdsValid(JobOf(event.payload.value).owner, OfferedItems(script), env)
    ensures var job := JobOf(event.payload.value);
      var parsed := ParseSpec(script.content.value, env.dateOk);
      var r := BuildRequests(Merge(parsed, PredictedMap(OfferedItems(script))), job.owner, env);
      && r.Ok? && |r.value| == |parsed|
      && Run(event, script, env).1
           == Start(job) + CallsBeforeBatch(job, script, parsed) + [CreateBatch(r.value)] + FailureReport(job, script.batch.message)
  {
    var job := JobOf(event.payload.value);
    ValidIdsBuildRequests(job, script, env);
    RunHandled(event, script, env);
    JobBatchRejected(job, script, env);
  }
}
