# poupeai-ingestion-service, modelled in Dafny

The ingestion service takes one queue message per uploaded bank statement. It
downloads the OFX file, parses its transactions and asks the report service to
predict a category for each description. It then sends every transaction to the
core service in one batch, keeps the ingestion job's status up to date and
tells the user how the job ended. This project models that path and proves what
it promises.

- `wrappers.dfy` (`Wrappers`): `Option` and `Result`.
- `text.dfy` (`Text`): the `java.lang.String` operations the parser and the
  listener rely on. They are `trim` (strip every character up to U+0020),
  `toLowerCase`, `equalsIgnoreCase`, `contains`, `indexOf` and `lastIndexOf`.
- `decimals.dfy` (`Decimals`): the part of `java.math.BigDecimal` that the
  parser reaches. A decimal is an unscaled integer with a scale. It covers
  construction from a `[-\d.]+` text, comparison with zero and `abs()`.
- `bank_transaction.dfy` (`BankTransactions`): `BankTransaction` is a class.
  Its category is the only field that changes after construction. `TxRecord`
  is the value it holds at one moment.
- `ofx_parser.dfy` (`OfxParser`): `OfxParserService.parse` on the decoded
  document.
  - The tag patterns are matched leftmost, with greedy or exact repetition.
  - The `<STMTTRN>` blocks are leftmost-shortest and non-overlapping.
  - Each block either becomes a transaction or is skipped.
  - `ParseSpec` is the function that specifies the result. `Parse` is the loop
    that allocates the transaction objects.
- `notification_payload.dfy` (`NotificationPayloads`): the `success` and
  `error` factories.
- `categorization_response.dfy` (`CategorizationResponses`):
  `getCategorizationsSafe`.
- `ingestion_listener.dfy` (`IngestionListener`): `handleIngestionEvent` and
  its helpers.
  - The collaborators are not called. What they answer comes from a `Script`:
    - the download step;
    - the decoded content, or a read failure;
    - the category list, or a failed call;
    - the prediction, or a failed call;
    - the batch step.
  - Every call the listener makes is recorded in order as an `Effect`:
    - a status update;
    - the download;
    - the category fetch;
    - the prediction request;
    - the batch;
    - a notification with its event type, recipient and payload.
  - `LocalDateTime.parse` and `UUID.fromString` are not re-implemented. They
    are the parameters `Env.dateOk` and `Env.uuid`.
  - `Run` is the function that specifies a run. `HandleIngestionEvent`,
    `ProcessFile`, `ApplyCategorization` and `PersistBatch` are the methods
    that do the work on the transaction objects.
- `pipeline_properties.dfy` (`PipelineProperties`): what a run promises, stated
  on its calls.
  - A handled job sends exactly one notification.
  - Its status goes PROCESSING, then COMPLETED or FAILED.
  - Each way the job can fail is reported with the exception's message.
  - A successful job sends one batch, with one request per parsed transaction.
  - `IdsValid` asks these identifiers to be UUIDs: the profile and account
    ids, each fallback category id, and the category id of each first
    prediction. That is more than a job converts, since `toCreateRequest`
    converts only the category a transaction ends up carrying; the line
    `PipelineProperties.SuccessfulJob` under "## Left out" says so. The
    success lemmas assume `IdsValid`; the failure lemmas assume only whether
    the requests can be built.

A `null` payload, profile, bank account or file key is an `Option`. So are the
job id, the fallback categories, the FITID, the transaction type, the category
and the levels of the prediction response. Every other string is taken to be
non-null.

## Model

| member | source | states |
|---|---|---|
| `Text.Trim` | src/main/java/io/github/poupeai/ingestion/service/parser/OfxParserService.java:96 | `trim` leaves no character up to U+0020 at either end and never lengthens the text |
| `Text.TrimRemovesOnlyBlanks` | src/main/java/io/github/poupeai/ingestion/service/parser/OfxParserService.java:105-106 | what `trim` removes is a blank prefix and a blank suffix; the result is the middle of the input |
| `Text.TrimIdempotent` | src/main/java/io/github/poupeai/ingestion/service/parser/OfxParserService.java:78 | trimming an extracted (already trimmed) FITID again changes nothing |
| `Text.Lower` | src/main/java/io/github/poupeai/ingestion/service/parser/OfxParserService.java:113 | `toLowerCase` keeps the length and folds each character on its own |
| `Text.LowerConcat` | src/main/java/io/github/poupeai/ingestion/service/parser/OfxParserService.java:113 | case folding distributes over concatenation |
| `Text.ContainsChar` | src/main/java/io/github/poupeai/ingestion/listener/IngestionListener.java:65 | `contains("/")` holds exactly when the character '/' occurs |
| `Text.IndexOfFrom` | src/main/java/io/github/poupeai/ingestion/service/parser/OfxParserService.java:24 | the first occurrence of a tag at or after a position, and none before it |
| `Text.LastIndexOf` | src/main/java/io/github/poupeai/ingestion/listener/IngestionListener.java:65 | `lastIndexOf('/')`: absent exactly when there is no '/', otherwise a '/' with none after it |
| `Decimals.SignOfValue` | src/main/java/io/github/poupeai/ingestion/service/parser/OfxParserService.java:63 | a decimal compares equal to (below) zero exactly when its unscaled integer is (below) zero |
| `Decimals.Abs` | src/main/java/io/github/poupeai/ingestion/listener/IngestionListener.java:218 | `abs()` keeps the scale, negates a negative value, keeps any other, and is never negative |
| `Decimals.ParseDecimal` | src/main/java/io/github/poupeai/ingestion/service/parser/OfxParserService.java:61 | `new BigDecimal`: a parsed amount has fewer fraction digits than its text has characters, and is negative only when the text starts with '-' |
| `Decimals.ParsedValue` | src/main/java/io/github/poupeai/ingestion/service/parser/OfxParserService.java:61 | `new BigDecimal` reads the digits positionally: the value is the integer digits followed by the fraction digits, at a scale equal to the number of fraction digits, negated after a leading '-' |
| `Decimals.DigitsValueConcat` | src/main/java/io/github/poupeai/ingestion/service/parser/OfxParserService.java:61 | the digits after a split are the low-order places of the whole digit string |
| `Decimals.ParseDecimalAcceptsLiterals` | src/main/java/io/github/poupeai/ingestion/service/parser/OfxParserService.java:61 | `new BigDecimal` on a `[-\d.]+` text succeeds exactly on an optional leading '-', then digits with at most one '.', with at least one digit |
| `Decimals.ParsedZeroIffZeroDigits` | src/main/java/io/github/poupeai/ingestion/service/parser/OfxParserService.java:61-65 | a parsed amount compares equal to zero exactly when every digit of its text is '0' |
| `Decimals.MalformedAmountExamples` | src/main/java/io/github/poupeai/ingestion/service/parser/OfxParserService.java:61 | "1.2.3" and "-" make the constructor throw |
| `Decimals.ZeroAmountExamples` | src/main/java/io/github/poupeai/ingestion/service/parser/OfxParserService.java:63-65 | "0.00" and "-0" parse and compare equal to zero |
| `Decimals.ParsedSignFollowsMinus` | src/main/java/io/github/poupeai/ingestion/listener/IngestionListener.java:216 | a parsed amount is below zero exactly when its text starts with '-' and it is not zero, so "-0" counts as income |
| `Decimals.NegativeAmountExample` | src/main/java/io/github/poupeai/ingestion/service/parser/OfxParserService.java:61 | "-12.34" is -1234 at scale 2 |
| `OfxParser.RunEnd` | src/main/java/io/github/poupeai/ingestion/service/parser/OfxParserService.java:26-31 | a greedy `+` group ends at the first character outside its class |
| `OfxParser.GroupAt` | src/main/java/io/github/poupeai/ingestion/service/parser/OfxParserService.java:96 | a group is non-empty (for `+`) and made only of its class's characters |
| `OfxParser.FirstMatchFrom` | src/main/java/io/github/poupeai/ingestion/service/parser/OfxParserService.java:94-95 | `find` reports a match and no match lies before it |
| `OfxParser.ExtractTagValue` | src/main/java/io/github/poupeai/ingestion/service/parser/OfxParserService.java:93-99 | a value is returned exactly when the pattern matches somewhere; it is trimmed and drawn from the value class |
| `OfxParser.ExtractTagValueIsLeftmost` | src/main/java/io/github/poupeai/ingestion/service/parser/OfxParserService.java:94-96 | the value is the trimmed group of the leftmost match |
| `OfxParser.NextBlock` | src/main/java/io/github/poupeai/ingestion/service/parser/OfxParserService.java:54-55 | a found block lies after the search start and its close tag fits in the document |
| `OfxParser.NextBlockIsLeftmostShortest` | src/main/java/io/github/poupeai/ingestion/service/parser/OfxParserService.java:24 | the block found is a match of `<STMTTRN>(.*?)</STMTTRN>` with no earlier match, and when none is found there is no match at all |
| `OfxParser.Blocks` | src/main/java/io/github/poupeai/ingestion/service/parser/OfxParserService.java:52-55 | the blocks come in document order and each next search starts after the previous close tag |
| `OfxParser.BlocksAreMatches` | src/main/java/io/github/poupeai/ingestion/service/parser/OfxParserService.java:54-55 | every block of the scan is a match of the block pattern |
| `OfxParser.BlocksDisjoint` | src/main/java/io/github/poupeai/ingestion/service/parser/OfxParserService.java:54-55 | any two blocks are disjoint, the earlier one ending before the later one opens |
| `OfxParser.BuildDescription` | src/main/java/io/github/poupeai/ingestion/service/parser/OfxParserService.java:101-116 | the description is never empty and is trimmed |
| `OfxParser.Describe` | src/main/java/io/github/poupeai/ingestion/service/parser/OfxParserService.java:108-115 | the six cases over trimmed name and memo give a non-empty trimmed text |
| `OfxParser.JoinKeepsTrimmed` | src/main/java/io/github/poupeai/ingestion/service/parser/OfxParserService.java:115 | "name - memo" of two trimmed non-empty texts is trimmed |
| `OfxParser.DescribeKeepsNameAndMemo` | src/main/java/io/github/poupeai/ingestion/service/parser/OfxParserService.java:108-115 | up to case, the description contains both the name and the memo; it is the placeholder when both are empty |
| `OfxParser.BuildDescriptionBlank` | src/main/java/io/github/poupeai/ingestion/service/parser/OfxParserService.java:102-108 | absent or blank name and memo give "Sem descrição" |
| `OfxParser.DescribeExamplesOneSide` | src/main/java/io/github/poupeai/ingestion/service/parser/OfxParserService.java:108-111 | equal texts give the name, one empty side gives the other, both empty give the placeholder |
| `OfxParser.DescribeExampleMemoContainsName` | src/main/java/io/github/poupeai/ingestion/service/parser/OfxParserService.java:113 | a memo that contains the name, ignoring case, is the description |
| `OfxParser.DescribeExampleJoined` | src/main/java/io/github/poupeai/ingestion/service/parser/OfxParserService.java:115 | unrelated name and memo are joined with " - " |
| `OfxParser.DateTextShape` | src/main/java/io/github/poupeai/ingestion/service/parser/OfxParserService.java:31 | an extracted DTPOSTED is exactly fourteen digits |
| `OfxParser.ConvertFields` | src/main/java/io/github/poupeai/ingestion/service/parser/OfxParserService.java:67-83 | with a non-zero amount, the block is rejected exactly when the date is missing or invalid; otherwise it yields an emittable transaction with that amount, the block's DTPOSTED text, TRNTYPE value, FITID value and the description built from its NAME and MEMO |
| `OfxParser.ConvertBlock` | src/main/java/io/github/poupeai/ingestion/service/parser/OfxParserService.java:57-87 | a block that converts yields a transaction with a non-zero amount, the document's bank code, no category, a valid 14-digit date and a non-empty trimmed description; its amount is the parsed TRNAMT, and its date, type, FITID and description are this block's DTPOSTED, TRNTYPE, FITID and NAME/MEMO values |
| `OfxParser.ConvertBlockOutcomes` | src/main/java/io/github/poupeai/ingestion/service/parser/OfxParserService.java:57-87 | a block is skipped silently exactly when its amount is absent or all zeros; it is rejected exactly when the amount is not a literal, or is non-zero with a missing or invalid date |
| `OfxParser.BankCode` | src/main/java/io/github/poupeai/ingestion/service/parser/OfxParserService.java:49-50 | the bank code is "UNKNOWN" exactly when no `<BANKID>` digit run exists; otherwise it is a non-empty digit run |
| `OfxParser.Collect` | src/main/java/io/github/poupeai/ingestion/service/parser/OfxParserService.java:54-88 | the records the loop keeps from a list of blocks: at most one per block |
| `OfxParser.CollectCons` | src/main/java/io/github/poupeai/ingestion/service/parser/OfxParserService.java:54-88 | the first block contributes first |
| `OfxParser.BlocksStep` | src/main/java/io/github/poupeai/ingestion/service/parser/OfxParserService.java:54-55 | one `find` step: the block found comes first and the scan resumes after its close tag |
| `OfxParser.CollectNext` | src/main/java/io/github/poupeai/ingestion/service/parser/OfxParserService.java:54-88 | one loop turn: the block found contributes before the rest of the scan |
| `OfxParser.ParseStep` | src/main/java/io/github/poupeai/ingestion/service/parser/OfxParserService.java:54-88 | the loop invariant of `parse` is kept by one turn |
| `OfxParser.CollectEmittable` | src/main/java/io/github/poupeai/ingestion/service/parser/OfxParserService.java:54-88 | every emitted transaction is emittable and no block emits more than one |
| `OfxParser.CollectAppend` | src/main/java/io/github/poupeai/ingestion/service/parser/OfxParserService.java:54-88 | the blocks of a prefix contribute before those of the rest |
| `OfxParser.CollectAt` | src/main/java/io/github/poupeai/ingestion/service/parser/OfxParserService.java:54-88 | each block contributes at its own position, whatever the other blocks do |
| `OfxParser.ParseSpec` | src/main/java/io/github/poupeai/ingestion/service/parser/OfxParserService.java:35-91 | the result of `parse`: at most one record per `<STMTTRN>` block, each with its fields present, a non-zero amount, a valid date and the document's bank code |
| `OfxParser.ParseSpecEmittable` | src/main/java/io/github/poupeai/ingestion/service/parser/OfxParserService.java:49-90 | no parsed transaction has a zero amount; each carries the document's bank code, no category, a trimmed FITID and a valid date; there are at most as many transactions as blocks |
| `OfxParser.ParseSkipsOnlyBadBlock` | src/main/java/io/github/poupeai/ingestion/service/parser/OfxParserService.java:54-87 | a skipped or rejected block removes only its own contribution; the scan goes on |
| `OfxParser.ParseKeepsDocumentOrder` | src/main/java/io/github/poupeai/ingestion/service/parser/OfxParserService.java:52-76 | a block that converts puts its transaction right after everything the earlier blocks emit |
| `OfxParser.Parse` | src/main/java/io/github/poupeai/ingestion/service/parser/OfxParserService.java:48-90 | the loop allocates fresh, distinct transaction objects whose values are `ParseSpec` of the document |
| `BankTransactions.BankTransaction.constructor` | src/main/java/io/github/poupeai/ingestion/service/parser/OfxParserService.java:76-83 | the new transaction holds the given values |
| `BankTransactions.BankTransaction.SetCategoryId` | src/main/java/io/github/poupeai/ingestion/listener/IngestionListener.java:186 | only the category changes |
| `BankTransactions.Records` | src/main/java/io/github/poupeai/ingestion/listener/IngestionListener.java:183 | the values of a list of transactions, in list order |
| `BankTransactions.RecordsAppend` | src/main/java/io/github/poupeai/ingestion/service/parser/OfxParserService.java:76 | appending a transaction appends its value |
| `BankTransactions.AppendNew` | src/main/java/io/github/poupeai/ingestion/service/parser/OfxParserService.java:76-83 | `transactions.add(new ...)` appends one fresh object holding the given value and keeps the list free of repeats |
| `NotificationPayloads.Success` | src/main/java/io/github/poupeai/ingestion/domain/event/NotificationPayload.java:13-15 | status "SUCCESS", no error code or message, file and account names kept |
| `NotificationPayloads.Error` | src/main/java/io/github/poupeai/ingestion/domain/event/NotificationPayload.java:17-19 | status "FAILED" with exactly the given code and message, file and account names kept |
| `NotificationPayloads.FactoriesDisjoint` | src/main/java/io/github/poupeai/ingestion/domain/event/NotificationPayload.java:13-19 | no payload comes from both factories |
| `CategorizationResponses.GetCategorizationsSafe` | src/main/java/io/github/poupeai/ingestion/client/dto/CategorizationResponse.java:20-25 | the list the response carries, unchanged, or the empty list when the content or its list is null |
| `IngestionListener.FileName` | src/main/java/io/github/poupeai/ingestion/listener/IngestionListener.java:65 | the file name holds no '/', ends the key, is the whole key exactly when the key has no '/', and otherwise follows a '/' |
| `IngestionListener.UpdateJobStatus` | src/main/java/io/github/poupeai/ingestion/listener/IngestionListener.java:138-149 | no call without a job id; with one, exactly one status call carrying the status, summary and error text |
| `IngestionListener.FetchCategoriesSafely` | src/main/java/io/github/poupeai/ingestion/listener/IngestionListener.java:151-157 | a failed category fetch gives the empty list; a successful one returns the list unchanged |
| `IngestionListener.FirstIndex` | src/main/java/io/github/poupeai/ingestion/listener/IngestionListener.java:166 | the first position of a value in a list |
| `IngestionListener.FirstIndexUnique` | src/main/java/io/github/poupeai/ingestion/listener/IngestionListener.java:166 | an occurrence with none before it is the first |
| `IngestionListener.FirstIndexSnoc` | src/main/java/io/github/poupeai/ingestion/listener/IngestionListener.java:166 | appending a value moves no first occurrence |
| `IngestionListener.Dedup` | src/main/java/io/github/poupeai/ingestion/listener/IngestionListener.java:164-167 | the descriptions sent hold every description once, and no other, in order of first appearance |
| `IngestionListener.PredictedMap` | src/main/java/io/github/poupeai/ingestion/listener/IngestionListener.java:175-181 | every entry of the map comes from an item with that description and that (non-null) category |
| `IngestionListener.Categorized` | src/main/java/io/github/poupeai/ingestion/listener/IngestionListener.java:184-188 | one loop turn changes only the category, sets it to the mapped one when the description is a key, and leaves the transaction alone otherwise |
| `IngestionListener.Merge` | src/main/java/io/github/poupeai/ingestion/listener/IngestionListener.java:183-189 | the loop keeps the number of transactions and changes nothing in them but their category |
| `IngestionListener.MatchCount` | src/main/java/io/github/poupeai/ingestion/listener/IngestionListener.java:183-189 | `matches` never exceeds the number of transactions |
| `IngestionListener.PredictedMapKeys` | src/main/java/io/github/poupeai/ingestion/listener/IngestionListener.java:175-181 | a description is a key exactly when some item with a non-null category predicts it |
| `IngestionListener.PredictedMapKeepsFirst` | src/main/java/io/github/poupeai/ingestion/listener/IngestionListener.java:175-181 | a repeated description keeps the category of its first item with a category |
| `IngestionListener.FirstPredictionExists` | src/main/java/io/github/poupeai/ingestion/listener/IngestionListener.java:180 | a predicted description has a first predicting item |
| `IngestionListener.CategoryComesFromFirstPrediction` | src/main/java/io/github/poupeai/ingestion/listener/IngestionListener.java:172-189 | a transaction whose exact description is predicted takes the first prediction's category; any other is unchanged; nothing but the category changes |
| `IngestionListener.MatchCountBounds` | src/main/java/io/github/poupeai/ingestion/listener/IngestionListener.java:183-189 | the count is at most the number of transactions; it is zero exactly when none matches and full exactly when all match |
| `IngestionListener.MergeWithoutPredictions` | src/main/java/io/github/poupeai/ingestion/listener/IngestionListener.java:174 | with no prediction the transactions are unchanged and the count is zero |
| `IngestionListener.MatchCountStep` | src/main/java/io/github/poupeai/ingestion/listener/IngestionListener.java:185-188 | one loop turn adds one exactly when the description is a key |
| `IngestionListener.RecordsAfterLoop` | src/main/java/io/github/poupeai/ingestion/listener/IngestionListener.java:183-189 | once every object has its merged category, the list's values are the merge |
| `IngestionListener.ApplyPredictions` | src/main/java/io/github/poupeai/ingestion/listener/IngestionListener.java:183-189 | the loop gives every listed transaction its merged category (also when an object is listed twice) and counts the updates |
| `IngestionListener.ApplyCategorization` | src/main/java/io/github/poupeai/ingestion/listener/IngestionListener.java:160-196 | the distinct descriptions are sent; afterwards the transactions are the merge with the prediction map, empty when the call fails or answers null, and the count is the number merged |
| `IngestionListener.FinalCategory` | src/main/java/io/github/poupeai/ingestion/listener/IngestionListener.java:220-224 | a transaction's own category is kept; without one the category is one of the two fallbacks |
| `IngestionListener.ToCreateRequest` | src/main/java/io/github/poupeai/ingestion/listener/IngestionListener.java:213-236 | identifiers are converted profile first, then account, then the chosen category, and the first that fails gives the error (one clause per case). A request has EXPENSE exactly when the amount is negative, and its amount is `abs()` of the transaction's, scale included. It carries the own category, else the expense or income fallback, else none. Description, date and FITID pass through |
| `IngestionListener.BuildRequests` | src/main/java/io/github/poupeai/ingestion/listener/IngestionListener.java:201-203 | all requests in list order when every transaction maps, else the error of the first that does not |
| `IngestionListener.Settle` | src/main/java/io/github/poupeai/ingestion/listener/IngestionListener.java:124-132 | a finished block adds nothing; a failed one adds to its calls and ends with the INTERNAL_ERROR notification carrying the exception's message |
| `IngestionListener.Persist` | src/main/java/io/github/poupeai/ingestion/listener/IngestionListener.java:198-210 | the calls made so far are kept; a mapping failure stops before the batch with that message; the block finishes exactly when every request is built and the batch call returns |
| `IngestionListener.AfterParse` | src/main/java/io/github/poupeai/ingestion/listener/IngestionListener.java:81-121 | the calls made so far are kept, and an empty statement always finishes the block |
| `IngestionListener.Process` | src/main/java/io/github/poupeai/ingestion/listener/IngestionListener.java:76-122 | the download is always the first call, and a failed download fails the block with its message alone |
| `IngestionListener.Run` | src/main/java/io/github/poupeai/ingestion/listener/IngestionListener.java:43-136 | a null payload is ignored; a payload is handled exactly when its profile, account and file key are present; an unhandled event makes no call |
| `IngestionListener.ProcessFile` | src/main/java/io/github/poupeai/ingestion/listener/IngestionListener.java:76-121 | the guarded block on the parsed objects makes exactly the calls `Process` describes |
| `IngestionListener.PersistBatch` | src/main/java/io/github/poupeai/ingestion/listener/IngestionListener.java:198-211 | persisting and completing make exactly the calls `Persist` describes |
| `IngestionListener.HandleIngestionEvent` | src/main/java/io/github/poupeai/ingestion/listener/IngestionListener.java:43-136 | the listener's outcome and calls are exactly those of `Run` |
| `PipelineProperties.CountConcat` | src/main/java/io/github/poupeai/ingestion/listener/IngestionListener.java:74-132 | counting calls distributes over concatenation |
| `PipelineProperties.StatusesConcat` | src/main/java/io/github/poupeai/ingestion/listener/IngestionListener.java:138-149 | the statuses set distribute over concatenation |
| `PipelineProperties.BatchesConcat` | src/main/java/io/github/poupeai/ingestion/listener/IngestionListener.java:205-206 | the batches sent distribute over concatenation |
| `PipelineProperties.QuietCounts` | src/main/java/io/github/poupeai/ingestion/listener/IngestionListener.java:76-107 | calls before the end hold no notification and no status |
| `PipelineProperties.EndingShape` | src/main/java/io/github/poupeai/ingestion/listener/IngestionListener.java:117-121 | a final status and a notification make the notification last, the only one, and the status the only one |
| `PipelineProperties.ProcessShape` | src/main/java/io/github/poupeai/ingestion/listener/IngestionListener.java:76-121 | the guarded block notifies and marks the job only at its normal end, once, and never with INTERNAL_ERROR |
| `PipelineProperties.AfterParseShape` | src/main/java/io/github/poupeai/ingestion/listener/IngestionListener.java:81-121 | the same from the parse on |
| `PipelineProperties.PersistShape` | src/main/java/io/github/poupeai/ingestion/listener/IngestionListener.java:107-121 | the same from the batch on |
| `PipelineProperties.SettleShape` | src/main/java/io/github/poupeai/ingestion/listener/IngestionListener.java:124-132 | after the `catch`, every attempt ends with one notification and one final status, FAILED exactly for INTERNAL_ERROR |
| `PipelineProperties.StartThenSettle` | src/main/java/io/github/poupeai/ingestion/listener/IngestionListener.java:67-132 | PROCESSING comes first and the end is as `SettleShape` says |
| `PipelineProperties.RunHandled` | src/main/java/io/github/poupeai/ingestion/listener/IngestionListener.java:49-74 | a message with payload, profile, account and file key is handled, starting with the PROCESSING status |
| `PipelineProperties.JobReportsOnce` | src/main/java/io/github/poupeai/ingestion/listener/IngestionListener.java:67-132 | one notification, last; statuses PROCESSING then FAILED or COMPLETED, FAILED exactly with INTERNAL_ERROR |
| `PipelineProperties.HandledJobReportsOnce` | src/main/java/io/github/poupeai/ingestion/listener/IngestionListener.java:43-149 | every handled job sends exactly one notification, as its last call; a job with an id goes PROCESSING then exactly one of COMPLETED or FAILED, FAILED exactly when the notification reports INTERNAL_ERROR; a job without an id is never marked |
| `PipelineProperties.UnhandledMakesNoCalls` | src/main/java/io/github/poupeai/ingestion/listener/IngestionListener.java:44-65 | a null payload is ignored, a null profile, account or file key escapes, and neither makes any call |
| `PipelineProperties.ReportedWithoutBatch` | src/main/java/io/github/poupeai/ingestion/listener/IngestionListener.java:124-132 | a failure report after calls without a batch sends no batch |
| `PipelineProperties.DownloadFailureReported` | src/main/java/io/github/poupeai/ingestion/listener/IngestionListener.java:76 | a failed download is reported, FAILED and INTERNAL_ERROR, with the storage exception's message, and nothing else is called |
| `PipelineProperties.UnreadableFileReported` | src/main/java/io/github/poupeai/ingestion/service/parser/OfxParserService.java:44-46 | an unreadable stream is reported with "Falha ao ler stream do OFX" |
| `PipelineProperties.EmptyJobCompletes` | src/main/java/io/github/poupeai/ingestion/listener/IngestionListener.java:81-97 | the calls of an empty-statement job, from the first status call on |
| `PipelineProperties.EmptyStatementCompletes` | src/main/java/io/github/poupeai/ingestion/listener/IngestionListener.java:81-97 | an empty statement completes the job with the empty summary and one NO_TRANSACTIONS notification; no category fetch, no batch |
| `PipelineProperties.NoBatches` | src/main/java/io/github/poupeai/ingestion/listener/IngestionListener.java:206 | calls without a batch call send no batch |
| `PipelineProperties.RequestForTransaction` | src/main/java/io/github/poupeai/ingestion/listener/IngestionListener.java:213-236 | under `IdsValid`, the request for a merged transaction is built, mirrors it and carries the first prediction's category, else the fallback |
| `PipelineProperties.PersistFinishes` | src/main/java/io/github/poupeai/ingestion/listener/IngestionListener.java:106-121 | a batch that returns is the only one; the job is completed with its numbers and the success notification is last |
| `PipelineProperties.CallsBeforeBatch` | src/main/java/io/github/poupeai/ingestion/listener/IngestionListener.java:76-104 | the calls before the batch include no batch |
| `PipelineProperties.AfterParseReachesPersist` | src/main/java/io/github/poupeai/ingestion/listener/IngestionListener.java:99-107 | a non-empty statement is categorised with the offered items and persisted |
| `PipelineProperties.RequestsForParsed` | src/main/java/io/github/poupeai/ingestion/listener/IngestionListener.java:201-203 | under `IdsValid`, every parsed transaction yields its request in order |
| `PipelineProperties.ProcessSucceeds` | src/main/java/io/github/poupeai/ingestion/listener/IngestionListener.java:76-121 | under `IdsValid`, the guarded block of a job whose batch returns ends normally after one batch |
| `PipelineProperties.JobSucceeds` | src/main/java/io/github/poupeai/ingestion/listener/IngestionListener.java:67-121 | the same, from the first status call on |
| `PipelineProperties.SuccessfulJob` | src/main/java/io/github/poupeai/ingestion/listener/IngestionListener.java:106-121 | under `IdsValid`: exactly one batch with one request per parsed transaction, in order, each mirroring its transaction with the predicted or fallback category; then COMPLETED with the total and the number categorised by prediction, and the success notification last |
| `PipelineProperties.DegradedCategorisation` | src/main/java/io/github/poupeai/ingestion/listener/IngestionListener.java:99-104 | with no category the prediction is not requested; when it fails or predicts nothing the transactions are persisted unchanged; either way with no AI count |
| `PipelineProperties.InvalidProfileFailsMapping` | src/main/java/io/github/poupeai/ingestion/listener/IngestionListener.java:227 | the profile id is converted first, so an invalid one fails mapping at the first transaction with its own message |
| `PipelineProperties.ProcessFailsOnMapping` | src/main/java/io/github/poupeai/ingestion/listener/IngestionListener.java:201-203 | when some transaction cannot be mapped, the block fails before the batch with the first such conversion's message |
| `PipelineProperties.MappingFailureReported` | src/main/java/io/github/poupeai/ingestion/listener/IngestionListener.java:201-203 | then no batch is sent and the job is reported FAILED with that message |
| `PipelineProperties.ValidIdsBuildRequests` | src/main/java/io/github/poupeai/ingestion/listener/IngestionListener.java:201-203 | under `IdsValid`, every request of the job can be built, one per parsed transaction |
| `PipelineProperties.ProcessBatchRejected` | src/main/java/io/github/poupeai/ingestion/listener/IngestionListener.java:205-210 | when every request can be built and the batch throws, the block fails after that one call |
| `PipelineProperties.JobBatchRejected` | src/main/java/io/github/poupeai/ingestion/listener/IngestionListener.java:205-210 | the calls of a job whose batch throws, from the first status call on |
| `PipelineProperties.BatchRejectedReported` | src/main/java/io/github/poupeai/ingestion/listener/IngestionListener.java:207-209 | under `IdsValid`, the job is then reported FAILED with the client's message after exactly one batch of one request per transaction |

## Left out

- Reading the byte stream and UTF-8 decoding (`OfxParserService.java:39-46`) are not modelled. The model starts from the decoded text, with lines joined by "\n". A read failure is one script outcome, reported with the parser's message.
- The calendar rules of `LocalDateTime.parse(_, "yyyyMMddHHmmss")` are not modelled. Only its acceptance is kept, as `Env.dateOk`.
- `toLocalDate` is not modelled: a request carries the 14-digit stamp rather than the date.
- The grammar of `UUID.fromString` is not modelled. Its result or exception message comes from `Env.uuid`.
- The exception texts of the storage and core clients are script data.
- Case folding covers the Latin-1 range (A-Z, U+00C0-U+00DE except U+00D7). Other scripts' upper-case letters are left as they are.
- The JSON summaries are the `Summary` datatype (start, empty, or total with AI count), not their text.
- The `NotificationEvent` envelope is not modelled. Its random message id and clock timestamp are left out; a notification is its event type, recipient and payload.
- A failure to publish is swallowed in the source, so it has no effect and is not modelled.
- Logging and MDC calls are not modelled.
- Closing the downloaded stream is infallible in the model. A failing close after the success notification would reach the `catch` block and send a second notification.
- Concurrency is not modelled. Each message is an independent run.
- A null description or category id inside an item list is modelled. A null list element, a null category list returned by the core service, and any other null string are not.
- PipelineProperties.SuccessfulJob: `IdsValid` asks for both fallback ids and every first-predicted category id to be UUIDs, even one no transaction ends up using; the exact condition, that every request can be built, is the one `PipelineProperties.ProcessBatchRejected` uses.
