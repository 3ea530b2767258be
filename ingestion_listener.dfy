/**
 * `IngestionListener`: one ingestion job, from the queue message to the
 * status updates, the transaction batch and the user notification.
 *
 * The collaborators (object store, core service, report service, notification
 * queue) are not called: what they answer comes from a `Script`, and every
 * call the listener makes is recorded, in order, as an `Effect`.
 */
module IngestionListener {
  import opened Wrappers
  import opened Text
  import opened Decimals
  import opened BankTransactions
  import opened OfxParser
  import opened NotificationPayloads
  import opened CategorizationResponses

  // ---------------------------------------------------------------------------
  // Messages and requests
  // ---------------------------------------------------------------------------

  datatype ProfileInfo = ProfileInfo(id: string, name: string, email: string)

  datatype AccountInfo = AccountInfo(id: string, name: string)

  /** The job description. Fields the listener dereferences may be null. */
  datatype IngestionJobPayload = IngestionJobPayload(
    jobId: Option<string>,
    fileKey: Option<string>,
    profile: Option<ProfileInfo>,
    bankAccount: Option<AccountInfo>,
    fallbackIncomeCategoryId: Option<string>,
    fallbackExpenseCategoryId: Option<string>)

  /** The queue message; its envelope fields play no part in the job. */
  datatype IngestionEvent = IngestionEvent(payload: Option<IngestionJobPayload>)

  /** A category of the user, as the core service lists it. */
  datatype Category = Category(id: string, name: string)

  datatype TransactionType = Income | Expense

  /**
   * `CreateTransactionRequest`. The three identifiers hold what
   * `UUID.fromString` made of the text; `date` is the posting stamp.
   */
  datatype CreateTransactionRequest = CreateTransactionRequest(
    profileId: string,
    bankAccountId: string,
    description: string,
    amount: Decimal,
    transactionType: TransactionType,
    date: string,
    categoryId: Option<string>,
    originalStatementId: Option<string>)

  /** The job summary, by its numbers: the start, the empty file, and the finished job. */
  datatype Summary = StartSummary | EmptySummary | DoneSummary(total: nat, aiCategorized: nat)

  datatype UpdateIngestionJobRequest = UpdateIngestionJobRequest(
    status: string,
    summary: Option<Summary>,
    errorDetails: Option<string>)

  datatype NotificationRecipient = NotificationRecipient(userId: string, email: string, name: string)

  const StatusProcessing := "PROCESSING"
  const StatusCompleted := "COMPLETED"
  const StatusJobFailed := "FAILED"
  const EventCompleted := "STATEMENT_PROCESSING_COMPLETED"
  const EventFailed := "STATEMENT_PROCESSING_FAILED"
  const CodeNoTransactions := "NO_TRANSACTIONS"
  const CodeInternalError := "INTERNAL_ERROR"
  const MessageNoTransactions := "Nenhuma transa\U{00E7}\U{00E3}o encontrada no arquivo."
  const ReadFailureMessage := "Falha ao ler stream do OFX"
  const InternalErrorPrefix := "Erro interno: "
  const ProcessingErrorPrefix := "Erro ao processar arquivo: "

  /** One call the listener makes on a collaborator. */
  datatype Effect =
    | StatusUpdate(jobId: string, request: UpdateIngestionJobRequest)
    | Download(fileKey: string)
    | FetchCategories(profileId: string)
    | Predict(descriptions: seq<string>, categories: seq<Category>)
    | CreateBatch(requests: seq<CreateTransactionRequest>)
    | Notify(eventType: string, recipient: NotificationRecipient, payload: NotificationPayload)

  // ---------------------------------------------------------------------------
  // What the collaborators answer
  // ---------------------------------------------------------------------------

  /** A call that returns normally, or throws an exception with this message text. */
  datatype Step = Done | Thrown(message: string)

  datatype PredictionOutcome = PredictionFailed | Predicted(response: Option<CategorizationResponse>)

  /**
   * The answers of one run: the download, the decoded file (`None` when
   * reading the stream fails), the category list (`None` when the call
   * fails), the prediction, and the batch call.
   */
  datatype Script = Script(
    download: Step,
    content: Option<string>,
    categories: Option<seq<Category>>,
    prediction: PredictionOutcome,
    batch: Step)

  /**
   * The library calls the model does not re-implement: whether
   * `LocalDateTime.parse(_, "yyyyMMddHHmmss")` accepts a stamp, and what
   * `UUID.fromString` returns (the identifier's text) or throws (the message).
   */
  datatype Env = Env(dateOk: string -> bool, uuid: string -> Result<string, string>)

  // ---------------------------------------------------------------------------
  // File name
  // ---------------------------------------------------------------------------

  /**
   * The file name shown to the user: the key after its last '/', or the
   * whole key when it has none. It never holds a '/', it ends the key, and
   * it is preceded by a '/' when it is not the whole key.
   */
  function FileName(fileKey: string): (r: string)
    ensures '/' !in r
    ensures |r| <= |fileKey| && r == fileKey[|fileKey| - |r|..]
    ensures '/' in fileKey <==> |r| < |fileKey|
    ensures |r| < |fileKey| ==> fileKey[|fileKey| - |r| - 1] == '/'
  {
    ContainsChar(fileKey, '/');
    if Contains(fileKey, "/") then
      var i := LastIndexOf(fileKey, '/').value;
      fileKey[i + 1..]
    else
      fileKey
  }

  // ---------------------------------------------------------------------------
  // Status updates, categories, notifications
  // ---------------------------------------------------------------------------

  /**
   * `updateJobStatus`: nothing for a null job id; otherwise one status call,
   * whose failure is logged and swallowed, so it never throws.
   */
  function UpdateJobStatus(jobId: Option<string>, status: string, summary: Option<Summary>, error: Option<string>): (r: seq<Effect>)
    ensures jobId.None? <==> r == []
    ensures jobId.Some? ==> r == [StatusUpdate(jobId.value, UpdateIngestionJobRequest(status, summary, error))]
  {
    if jobId.None? then [] else [StatusUpdate(jobId.value, UpdateIngestionJobRequest(status, summary, error))]
  }

  /** `fetchCategoriesSafely`: a failed call degrades to the empty list. */
  function FetchCategoriesSafely(answer: Option<seq<Category>>): (r: seq<Category>)
    ensures answer.None? ==> r == []
    ensures answer.Some? ==> r == answer.value
  {
    if answer.None? then [] else answer.value
  }

  /** `NotificationProducer.sendSuccess`; a publishing failure is swallowed. */
  function SendSuccess(profile: ProfileInfo, fileName: string, accountName: string): Effect {
    Notify(EventCompleted, NotificationRecipient(profile.id, profile.email, profile.name), Success(fileName, accountName))
  }

  /** `NotificationProducer.sendError`; a publishing failure is swallowed. */
  function SendError(profile: ProfileInfo, fileName: string, accountName: string, code: string, message: string): Effect {
    Notify(EventFailed, NotificationRecipient(profile.id, profile.email, profile.name), Error(fileName, accountName, code, message))
  }

  // ---------------------------------------------------------------------------
  // Category prediction
  // ---------------------------------------------------------------------------

  /** The position of the first occurrence of `x` in `xs`. */
  function FirstIndex<T(==)>(xs: seq<T>, x: T): (i: nat)
    requires x in xs
    ensures i < |xs| && xs[i] == x && x !in xs[..i]
  {
    if xs[0] == x then 0
    else
      var i := 1 + FirstIndex(xs[1..], x);
      assert xs[..i] == [xs[0]] + xs[1..][..i - 1];
      i
  }

  /** An occurrence with no earlier one is the first occurrence. */
  lemma {:induction false} FirstIndexUnique<T>(xs: seq<T>, x: T, i: nat)
    requires i < |xs| && xs[i] == x && x !in xs[..i]
    ensures FirstIndex(xs, x) == i
  {
  }

  /** Appending a value moves no first occurrence, and a new value's first occurrence is the last position. */
  lemma {:induction false} FirstIndexSnoc(init: seq<string>, x: string)
    ensures forall y | y in init :: FirstIndex(init + [x], y) == FirstIndex(init, y)
    ensures x !in init ==> FirstIndex(init + [x], x) == |init|
    ensures forall y :: y in init + [x] <==> y in init || y == x
  {
    var xs := init + [x];
    forall y | y in init
      ensures FirstIndex(xs, y) == FirstIndex(init, y)
    {
      var k := FirstIndex(init, y);
      assert xs[..k] == init[..k];
      FirstIndexUnique(xs, y, k);
    }
    if x !in init {
      assert xs[..|init|] == init;
      FirstIndexUnique(xs, x, |init|);
    }
  }

  /**
   * `stream().distinct()`: every value once, in the order of its first
   * occurrence.
   */
  function Dedup(xs: seq<string>): (r: seq<string>)
    ensures forall x :: x in r <==> x in xs
    ensures forall i, j | 0 <= i < j < |r| :: r[i] != r[j]
    ensures forall i, j | 0 <= i < j < |r| :: FirstIndex(xs, r[i]) < FirstIndex(xs, r[j])
  {
    if xs == [] then []
    else
      var init := xs[..|xs| - 1];
      var x := xs[|xs| - 1];
      var d := Dedup(init);
      assert xs == init + [x];
      FirstIndexSnoc(init, x);
      if x in d then
        d
      else
        d + [x]
  }

  /** The item predicts a category for description `d`. */
  predicate Predicts(item: CategorizationItem, d: Option<string>) {
    item.description == d && item.categoryId.Some?
  }

  /** `items[i]` predicts a category for its description and no earlier item does. */
  predicate FirstPredictionAt(items: seq<CategorizationItem>, i: nat) {
    && i < |items|
    && Predicts(items[i], items[i].description)
    && forall j | 0 <= j < i :: !Predicts(items[j], items[i].description)
  }

  /**
   * `Collectors.toMap` over the items with a category, keyed by description,
   * folding from the left; a repeated description keeps the value already
   * collected.
   */
  function PredictedMap(items: seq<CategorizationItem>): (r: map<Option<string>, string>)
    ensures forall d | d in r :: exists i | 0 <= i < |items| :: items[i].description == d && items[i].categoryId == Some(r[d])
  {
    if items == [] then map[]
    else
      var m := PredictedMap(items[..|items| - 1]);
      assert forall i | 0 <= i < |items| - 1 :: items[..|items| - 1][i] == items[i];
      var item := items[|items| - 1];
      if item.categoryId.None? || item.description in m then m
      else m[item.description := item.categoryId.value]
  }

  /** A description is a key of the map exactly when some item predicts a category for it. */
  lemma {:induction false} PredictedMapKeys(items: seq<CategorizationItem>)
    ensures forall d :: d in PredictedMap(items) <==> exists i | 0 <= i < |items| :: Predicts(items[i], d)
    decreases |items|
  {
    if items != [] {
      var n := |items| - 1;
      var init := items[..n];
      PredictedMapKeys(init);
      forall d
        ensures d in PredictedMap(items) <==> exists i | 0 <= i < |items| :: Predicts(items[i], d)
      {
        if d in PredictedMap(items) {
          if d in PredictedMap(init) {
            var i :| 0 <= i < n && Predicts(init[i], d);
            assert items[i] == init[i];
          } else {
            assert Predicts(items[n], d);
          }
        }
        if exists i | 0 <= i < |items| :: Predicts(items[i], d) {
          var i :| 0 <= i < |items| && Predicts(items[i], d);
          if i < n {
            assert Predicts(init[i], d);
          }
        }
      }
    }
  }

  /** A description maps to the category of the first item that predicts one for it. */
  lemma {:induction false} PredictedMapKeepsFirst(items: seq<CategorizationItem>, i: nat)
    requires FirstPredictionAt(items, i)
    ensures items[i].description in PredictedMap(items)
    ensures PredictedMap(items)[items[i].description] == items[i].categoryId.value
    decreases |items|
  {
    var n := |items| - 1;
    var init := items[..n];
    var d := items[i].description;
    if i < n {
      assert FirstPredictionAt(init, i) by {
        assert forall j | 0 <= j <= i :: init[j] == items[j];
      }
      PredictedMapKeepsFirst(init, i);
    } else {
      PredictedMapKeys(init);
      assert forall j | 0 <= j < n :: init[j] == items[j];
    }
  }

  /** What the service's answer makes of the prediction map: nothing when the call fails or answers null. */
  function PredictionMap(prediction: PredictionOutcome): map<Option<string>, string> {
    match prediction
    case PredictionFailed => map[]
    case Predicted(None) => map[]
    case Predicted(Some(response)) => PredictedMap(GetCategorizationsSafe(response))
  }

  /** One turn of the loop over the transactions: a category predicted for the exact description replaces the transaction's own. */
  function Categorized(r: TxRecord, m: map<Option<string>, string>): (c: TxRecord)
    ensures c.(categoryId := r.categoryId) == r
    ensures Some(r.description) in m ==> c.categoryId == Some(m[Some(r.description)])
    ensures Some(r.description) !in m ==> c == r
  {
    if Some(r.description) in m then r.(categoryId := Some(m[Some(r.description)])) else r
  }

  /** The transactions after the loop. */
  function Merge(recs: seq<TxRecord>, m: map<Option<string>, string>): (r: seq<TxRecord>)
    ensures |r| == |recs|
    ensures forall i | 0 <= i < |recs| :: r[i].(categoryId := recs[i].categoryId) == recs[i]
  {
    seq(|recs|, i requires 0 <= i < |recs| => Categorized(recs[i], m))
  }

  /** `matches`: how many transactions the loop updated. */
  function MatchCount(recs: seq<TxRecord>, m: map<Option<string>, string>): (n: nat)
    ensures n <= |recs|
  {
    if recs == [] then 0
    else MatchCount(recs[..|recs| - 1], m) + (if Some(recs[|recs| - 1].description) in m then 1 else 0)
  }

  /** When some item predicts a category for `d`, one of them is the first to do so. */
  lemma {:induction false} FirstPredictionExists(items: seq<CategorizationItem>, d: Option<string>)
    requires exists i | 0 <= i < |items| :: Predicts(items[i], d)
    ensures exists i: nat | FirstPredictionAt(items, i) :: items[i].description == d
    decreases |items|
  {
    var n := |items| - 1;
    var init := items[..n];
    assert forall j | 0 <= j < n :: init[j] == items[j];
    if exists i | 0 <= i < n :: Predicts(init[i], d) {
      FirstPredictionExists(init, d);
      var i: nat :| FirstPredictionAt(init, i) && init[i].description == d;
      assert FirstPredictionAt(items, i);
    } else {
      assert FirstPredictionAt(items, n);
    }
  }

  /**
   * After the loop, a transaction whose description some item predicts
   * carries the category of the first such item, and any other transaction
   * is untouched; nothing but the category ever changes.
   */
  lemma {:induction false} CategoryComesFromFirstPrediction(r: TxRecord, items: seq<CategorizationItem>)
    ensures Categorized(r, PredictedMap(items)).(categoryId := r.categoryId) == r
    ensures (exists i | 0 <= i < |items| :: Predicts(items[i], Some(r.description))) ==>
              exists i: nat | FirstPredictionAt(items, i) && items[i].description == Some(r.description) ::
                Categorized(r, PredictedMap(items)).categoryId == items[i].categoryId
    ensures (forall i | 0 <= i < |items| :: !Predicts(items[i], Some(r.description))) ==>
              Categorized(r, PredictedMap(items)) == r
  {
    var d := Some(r.description);
    PredictedMapKeys(items);
    if exists i | 0 <= i < |items| :: Predicts(items[i], d) {
      FirstPredictionExists(items, d);
      var i: nat :| FirstPredictionAt(items, i) && items[i].description == d;
      PredictedMapKeepsFirst(items, i);
    }
  }

  /** The loop's count never exceeds the number of transactions, and reaches either end exactly when all or none are predicted. */
  lemma {:induction false} MatchCountBounds(recs: seq<TxRecord>, m: map<Option<string>, string>)
    ensures MatchCount(recs, m) <= |recs|
    ensures MatchCount(recs, m) == 0 <==> forall i | 0 <= i < |recs| :: Some(recs[i].description) !in m
    ensures MatchCount(recs, m) == |recs| <==> forall i | 0 <= i < |recs| :: Some(recs[i].description) in m
    decreases |recs|
  {
    if recs != [] {
      var init := recs[..|recs| - 1];
      MatchCountBounds(init, m);
      assert forall i | 0 <= i < |init| :: init[i] == recs[i];
    }
  }

  /** With no prediction the loop changes nothing and counts nothing. */
  lemma {:induction false} MergeWithoutPredictions(recs: seq<TxRecord>)
    ensures Merge(recs, map[]) == recs
    ensures MatchCount(recs, map[]) == 0
  {
    MatchCountBounds(recs, map[]);
  }

  /** `MatchCount` over a prefix grows by one turn of the loop. */
  lemma {:induction false} MatchCountStep(recs: seq<TxRecord>, i: nat, m: map<Option<string>, string>)
    requires i < |recs|
    ensures MatchCount(recs[..i + 1], m) == MatchCount(recs[..i], m) + (if Some(recs[i].description) in m then 1 else 0)
  {
    assert recs[..i + 1][..i] == recs[..i];
  }

  /** The list's values once every listed object carries the category the loop gives its value. */
  lemma {:induction false} RecordsAfterLoop(txs: seq<BankTransaction>, recs: seq<TxRecord>, m: map<Option<string>, string>)
    requires |txs| == |recs|
    requires forall k | 0 <= k < |txs| :: txs[k].FixedFieldsAs(recs[k])
    requires forall k | 0 <= k < |txs| :: txs[k].categoryId == Categorized(recs[k], m).categoryId
    ensures Records(txs) == Merge(recs, m)
  {
    var rs := Records(txs);
    var ms := Merge(recs, m);
    forall k | 0 <= k < |txs|
      ensures rs[k] == ms[k]
    {
      assert rs[k] == txs[k].Record();
    }
  }

  /**
   * The `for` loop of `applyCategorization`: every listed transaction whose
   * description the map predicts takes that category, and the count says how
   * many listings were updated. `recs` are the values before the loop.
   */
  method ApplyPredictions(txs: seq<BankTransaction>, predicted: map<Option<string>, string>, ghost recs: seq<TxRecord>)
    returns (matches: nat)
    requires |txs| == |recs|
    requires forall k | 0 <= k < |txs| :: txs[k].FixedFieldsAs(recs[k]) && txs[k].categoryId == recs[k].categoryId
    modifies set t | t in txs
    ensures forall k | 0 <= k < |txs| :: txs[k].categoryId == Categorized(recs[k], predicted).categoryId
    ensures matches == MatchCount(recs, predicted)
  {
    matches := 0;
    var i := 0;
    while i < |txs|
      invariant i <= |txs|
      invariant matches == MatchCount(recs[..i], predicted)
      invariant forall k | 0 <= k < |txs| ::
                  txs[k].categoryId == recs[k].categoryId || txs[k].categoryId == Categorized(recs[k], predicted).categoryId
      invariant forall k | 0 <= k < i :: txs[k].categoryId == Categorized(recs[k], predicted).categoryId
    {
      var tx := txs[i];
      MatchCountStep(recs, i, predicted);
      var d := Some(tx.description);
      assert d == Some(recs[i].description);
      if d in predicted {
        tx.SetCategoryId(Some(predicted[d]));
        matches := matches + 1;
      }
      assert tx.categoryId == Categorized(recs[i], predicted).categoryId;
      forall k | 0 <= k <= i && txs[k] == tx
        ensures txs[k].categoryId == Categorized(recs[k], predicted).categoryId
      {
        assert recs[k].description == recs[i].description;
      }
      i := i + 1;
    }
    assert recs[..i] == recs;
  }

  /**
   * `applyCategorization`: send the distinct descriptions and the categories
   * to the prediction service; when it answers with items, give every
   * transaction whose description was predicted that category, and count
   * them. A failed call is logged and swallowed: nothing changes and the
   * count is zero. The same object listed twice is updated once per listing.
   */
  method ApplyCategorization(txs: seq<BankTransaction>, categories: seq<Category>, prediction: PredictionOutcome)
    returns (matches: nat, call: Effect)
    modifies set t | t in txs
    ensures call == Predict(Dedup(DescriptionsOf(old(Records(txs)))), categories)
    ensures Records(txs) == Merge(old(Records(txs)), PredictionMap(prediction))
    ensures matches == MatchCount(old(Records(txs)), PredictionMap(prediction))
  {
    ghost var recs := Records(txs);
    call := Predict(Dedup(DescriptionsOf(Records(txs))), categories);
    matches := 0;
    var items := if prediction.Predicted? && prediction.response.Some? then GetCategorizationsSafe(prediction.response.value) else [];
    if items == [] {
      assert PredictionMap(prediction) == map[];
      MergeWithoutPredictions(recs);
      return;
    }
    var predicted := PredictedMap(items);
    assert predicted == PredictionMap(prediction);
    assert forall k | 0 <= k < |txs| :: txs[k].FixedFieldsAs(recs[k]) && txs[k].categoryId == recs[k].categoryId;
    matches := ApplyPredictions(txs, predicted, recs);
    RecordsAfterLoop(txs, recs, predicted);
  }

  // ---------------------------------------------------------------------------
  // Requests to the core service
  // ---------------------------------------------------------------------------

  /** The identifiers every request of one job carries. */
  datatype Owner = Owner(
    profileId: string,
    bankAccountId: string,
    fallbackIncomeId: Option<string>,
    fallbackExpenseId: Option<string>)

  /** The category a request asks for: the transaction's own, else the fallback for its direction. */
  function FinalCategory(rec: TxRecord, owner: Owner): (c: Option<string>)
    ensures rec.categoryId.Some? ==> c == rec.categoryId
    ensures rec.categoryId.None? ==> c == owner.fallbackExpenseId || c == owner.fallbackIncomeId
  {
    if rec.categoryId.Some? then rec.categoryId
    else if IsNegative(rec.amount) then owner.fallbackExpenseId
    else owner.fallbackIncomeId
  }

  /**
   * `toCreateRequest`. The three `UUID.fromString` calls run in argument
   * order (profile, account, category), so the first that throws decides
   * the message; a null category is passed on as null.
   */
  function ToCreateRequest(rec: TxRecord, owner: Owner, env: Env): (r: Result<CreateTransactionRequest, string>)
    ensures env.uuid(owner.profileId).Err? ==> r == Err(env.uuid(owner.profileId).error)
    ensures env.uuid(owner.profileId).Ok? && env.uuid(owner.bankAccountId).Err? ==> r == Err(env.uuid(owner.bankAccountId).error)
    ensures && env.uuid(owner.profileId).Ok? && env.uuid(owner.bankAccountId).Ok?
            && FinalCategory(rec, owner).Some? && env.uuid(FinalCategory(rec, owner).value).Err?
            ==> r == Err(env.uuid(FinalCategory(rec, owner).value).error)
    ensures r.Ok? <==>
              && env.uuid(owner.profileId).Ok? && env.uuid(owner.bankAccountId).Ok?
              && (FinalCategory(rec, owner).Some? ==> env.uuid(FinalCategory(rec, owner).value).Ok?)
    ensures r.Ok? ==>
              var q := r.value;
              && q.profileId == env.uuid(owner.profileId).value
              && q.bankAccountId == env.uuid(owner.bankAccountId).value
              && q.description == rec.description
              && q.date == rec.postedAt
              && q.originalStatementId == rec.fitId
              && (q.transactionType == Expense <==> Value(rec.amount) < 0.0)
              && q.amount == Abs(rec.amount)
              && !IsNegative(q.amount)
              && Value(rec.amount) == (if q.transactionType == Expense then -Value(q.amount) else Value(q.amount))
              && (rec.categoryId.Some? ==> q.categoryId == Some(env.uuid(rec.categoryId.value).value))
              && (rec.categoryId.None? && q.transactionType == Expense ==>
                    q.categoryId == if owner.fallbackExpenseId.Some? then Some(env.uuid(owner.fallbackExpenseId.value).value) else None)
              && (rec.categoryId.None? && q.transactionType == Income ==>
                    q.categoryId == if owner.fallbackIncomeId.Some? then Some(env.uuid(owner.fallbackIncomeId.value).value) else None)
  {
    var isExpense := IsNegative(rec.amount);
    var category := FinalCategory(rec, owner);
    match env.uuid(owner.profileId)
    case Err(e) => Err(e)
    case Ok(profileId) =>
      match env.uuid(owner.bankAccountId)
      case Err(e) => Err(e)
      case Ok(bankAccountId) =>
        if category.Some? && env.uuid(category.value).Err? then
          Err(env.uuid(category.value).error)
        else
          var categoryId := if category.Some? then Some(env.uuid(category.value).value) else None;
          Ok(CreateTransactionRequest(
            profileId, bankAccountId, rec.description, Abs(rec.amount),
            if isExpense then Expense else Income,
            rec.postedAt, categoryId, rec.fitId))
  }

  /**
   * The `stream().map(toCreateRequest).toList()` of `persistTransactionsBatch`:
   * every request in list order, or the exception of the first transaction
   * that cannot be mapped.
   */
  function BuildRequests(recs: seq<TxRecord>, owner: Owner, env: Env): (r: Result<seq<CreateTransactionRequest>, string>)
    ensures r.Ok? <==> forall i | 0 <= i < |recs| :: ToCreateRequest(recs[i], owner, env).Ok?
    ensures r.Ok? ==> |r.value| == |recs| && forall i | 0 <= i < |recs| :: ToCreateRequest(recs[i], owner, env) == Ok(r.value[i])
    ensures r.Err? ==> exists i | 0 <= i < |recs| ::
              && ToCreateRequest(recs[i], owner, env) == Err(r.error)
              && forall j | 0 <= j < i :: ToCreateRequest(recs[j], owner, env).Ok?
    decreases |recs|
  {
    if recs == [] then Ok([])
    else
      match ToCreateRequest(recs[0], owner, env)
      case Err(e) => Err(e)
      case Ok(q) =>
        var rest := BuildRequests(recs[1..], owner, env);
        assert forall i | 1 <= i < |recs| :: recs[1..][i - 1] == recs[i];
        match rest
        case Err(e) =>
          assert exists i | 1 <= i < |recs| ::
            && ToCreateRequest(recs[i], owner, env) == Err(e)
            && forall j | 0 <= j < i :: ToCreateRequest(recs[j], owner, env).Ok?;
          Err(e)
        case Ok(qs) => Ok([q] + qs)
  }

  // ---------------------------------------------------------------------------
  // The job
  // ---------------------------------------------------------------------------

  /**
   * How `handleIngestionEvent` ends: the message is ignored (null payload),
   * an exception escapes before the guarded block (null profile, account or
   * file key), or the job is handled, successfully or not.
   */
  datatype Outcome = Ignored | Escaped | Handled

  /** What the listener reads from a payload whose profile, account and file key are present. */
  datatype Job = Job(
    jobId: Option<string>,
    fileKey: string,
    profile: ProfileInfo,
    account: AccountInfo,
    fileName: string,
    owner: Owner)

  /** Whether the payload has every field the listener dereferences before its `try`. */
  predicate Dereferenceable(p: IngestionJobPayload) {
    p.profile.Some? && p.bankAccount.Some? && p.fileKey.Some?
  }

  function JobOf(p: IngestionJobPayload): Job
    requires Dereferenceable(p)
  {
    var fileKey := p.fileKey.value;
    Job(p.jobId, fileKey, p.profile.value, p.bankAccount.value, FileName(fileKey),
        Owner(p.profile.value.id, p.bankAccount.value.id, p.fallbackIncomeCategoryId, p.fallbackExpenseCategoryId))
  }

  /** The guarded block ran to its end, or threw with `message` after making the calls in `effects`. */
  datatype Attempt = Finished(effects: seq<Effect>) | Failed(effects: seq<Effect>, message: string)

  /** The `catch` block: mark the job failed and tell the user, both with the exception's message. */
  function Settle(job: Job, a: Attempt): (r: seq<Effect>)
    ensures a.effects <= r
    ensures a.Finished? ==> r == a.effects
    ensures a.Failed? ==>
              && |r| > |a.effects|
              && r[|r| - 1] == SendError(job.profile, job.fileName, job.account.name, CodeInternalError, ProcessingErrorPrefix + a.message)
  {
    match a
    case Finished(effects) => effects
    case Failed(effects, message) =>
      effects
      + UpdateJobStatus(job.jobId, StatusJobFailed, None, Some(InternalErrorPrefix + message))
      + [SendError(job.profile, job.fileName, job.account.name, CodeInternalError, ProcessingErrorPrefix + message)]
  }

  /**
   * From the batch call on: map the transactions (whose values are `recs`)
   * to requests, send them, mark the job completed with its numbers and tell
   * the user. `before` are the calls already made.
   */
  function Persist(job: Job, script: Script, env: Env, before: seq<Effect>, recs: seq<TxRecord>, aiCategorized: nat): (a: Attempt)
    ensures before <= a.effects
    ensures BuildRequests(recs, job.owner, env).Err? ==> a == Failed(before, BuildRequests(recs, job.owner, env).error)
    ensures a.Finished? <==> BuildRequests(recs, job.owner, env).Ok? && script.batch.Done?
  {
    match BuildRequests(recs, job.owner, env)
    case Err(message) => Failed(before, message)
    case Ok(requests) =>
      var sent := before + [CreateBatch(requests)];
      if script.batch.Thrown? then
        Failed(sent, script.batch.message)
      else
        Finished(sent
          + UpdateJobStatus(job.jobId, StatusCompleted, Some(DoneSummary(|recs|, aiCategorized)), None)
          + [SendSuccess(job.profile, job.fileName, job.account.name)])
  }

  /** The guarded block after the first status update, from the download on. */
  function Process(job: Job, script: Script, env: Env): (a: Attempt)
    ensures a.effects != [] && a.effects[0] == Download(job.fileKey)
    ensures script.download.Thrown? ==> a == Failed([Download(job.fileKey)], script.download.message)
  {
    var download := [Download(job.fileKey)];
    if script.download.Thrown? then
      Failed(download, script.download.message)
    else if script.content.None? then
      Failed(download, ReadFailureMessage)
    else
      AfterParse(job, script, env, download, ParseSpec(script.content.value, env.dateOk))
  }

  /**
   * The guarded block once the file is parsed into `parsed`: stop early on
   * an empty statement; otherwise fetch the categories, let the prediction
   * service categorise the transactions when there are categories, and
   * persist.
   */
  function AfterParse(job: Job, script: Script, env: Env, before: seq<Effect>, parsed: seq<TxRecord>): (a: Attempt)
    ensures before <= a.effects
    ensures parsed == [] ==> a.Finished?
  {
    if parsed == [] then
      Finished(before
        + UpdateJobStatus(job.jobId, StatusCompleted, Some(EmptySummary), None)
        + [SendError(job.profile, job.fileName, job.account.name, CodeNoTransactions, MessageNoTransactions)])
    else
      var fetched := before + [FetchCategories(job.profile.id)];
      var categories := FetchCategoriesSafely(script.categories);
      if categories == [] then
        Persist(job, script, env, fetched, parsed, 0)
      else
        var predicted := PredictionMap(script.prediction);
        Persist(job, script, env, fetched + [Predict(Dedup(DescriptionsOf(parsed)), categories)],
                Merge(parsed, predicted), MatchCount(parsed, predicted))
  }

  /** `handleIngestionEvent`, as the outcome and the calls it makes, in order. */
  function Run(event: IngestionEvent, script: Script, env: Env): (r: (Outcome, seq<Effect>))
    ensures r.0 == Ignored <==> event.payload.None?
    ensures r.0 == Handled <==> event.payload.Some? && Dereferenceable(event.payload.value)
    ensures r.0 != Handled ==> r.1 == []
  {
    if event.payload.None? then
      (Ignored, [])
    else if !Dereferenceable(event.payload.value) then
      (Escaped, [])
    else
      var job := JobOf(event.payload.value);
      (Handled, UpdateJobStatus(job.jobId, StatusProcessing, Some(StartSummary), None) + Settle(job, Process(job, script, env)))
  }

  /** The guarded block, on the transaction objects the parser allocates. */
  method ProcessFile(job: Job, script: Script, env: Env) returns (a: Attempt)
    ensures a == Process(job, script, env)
  {
    var effects := [Download(job.fileKey)];
    if script.download.Thrown? {
      return Failed(effects, script.download.message);
    }
    if script.content.None? {
      return Failed(effects, ReadFailureMessage);
    }
    var transactions := Parse(script.content.value, env.dateOk);
    ghost var parsed := Records(transactions);
    if |transactions| == 0 {
      effects := effects + UpdateJobStatus(job.jobId, StatusCompleted, Some(EmptySummary), None);
      effects := effects + [SendError(job.profile, job.fileName, job.account.name, CodeNoTransactions, MessageNoTransactions)];
      return Finished(effects);
    }
    effects := effects + [FetchCategories(job.profile.id)];
    var categories := FetchCategoriesSafely(script.categories);
    var categorizedByAi := 0;
    if categories != [] {
      var call;
      categorizedByAi, call := ApplyCategorization(transactions, categories, script.prediction);
      effects := effects + [call];
    }
    a := PersistBatch(job, script, env, effects, transactions, categorizedByAi);
  }

  /** `persistTransactionsBatch` and the end of the guarded block. */
  method PersistBatch(job: Job, script: Script, env: Env, before: seq<Effect>, transactions: seq<BankTransaction>, aiCategorized: nat)
    returns (a: Attempt)
    ensures a == Persist(job, script, env, before, Records(transactions), aiCategorized)
  {
    var requests := BuildRequests(Records(transactions), job.owner, env);
    if requests.Err? {
      return Failed(before, requests.error);
    }
    var effects := before + [CreateBatch(requests.value)];
    if script.batch.Thrown? {
      return Failed(effects, script.batch.message);
    }
    effects := effects + UpdateJobStatus(job.jobId, StatusCompleted, Some(DoneSummary(|transactions|, aiCategorized)), None);
    effects := effects + [SendSuccess(job.profile, job.fileName, job.account.name)];
    return Finished(effects);
  }

  /** `handleIngestionEvent`: the listener's calls are exactly those `Run` describes. */
  method HandleIngestionEvent(event: IngestionEvent, script: Script, env: Env) returns (outcome: Outcome, effects: seq<Effect>)
    ensures (outcome, effects) == Run(event, script, env)
  {
    if event.payload.None? {
      return Ignored, [];
    }
    var payload := event.payload.value;
    if payload.profile.None? || payload.bankAccount.None? || payload.fileKey.None? {
      return Escaped, [];
    }
    var job := JobOf(payload);
    effects := UpdateJobStatus(job.jobId, StatusProcessing, Some(StartSummary), None);
    var attempt := ProcessFile(job, script, env);
    effects := effects + Settle(job, attempt);
    outcome := Handled;
  }
}
