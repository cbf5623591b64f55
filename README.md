# Appointment lifecycle — a Dafny model

This project models the appointment-scheduling backend of a medical
insurance system. It is built from AWS Lambdas that pass records through a
table, a topic, per-country queues, per-country databases and an event bus:

- **Intake** (`POST /appointments`): validates a request (`insuredId` of five UTF-16 units,
  numeric `scheduleId`, two-character `countryISO`). It saves the request as a `pending`
  record in the appointment table, publishes it to the SNS topic with its
  `countryISO` as routing attribute, and answers 202.
- **Query** (`GET /appointments/{insuredId}`): lists an insured's records once the
  parameter is five digits.
- **Country consumers** (Chile, Peru): read their queue in batches. They validate
  each payload, store it as a row of the country's in-memory database, and emit
  an `AppointmentProcessed` event to EventBridge.
- **Status consumer**: reads those events back through a queue. It completes the
  first pending record that matches the event's `(insuredId, scheduleId, countryISO)`.
- **Batch reporting**: both batch consumers report the `messageId` of every record
  that threw, as `batchItemFailures`, and go on with the rest of the batch.

The model is split into modules that follow the source files:

| module (file) | models |
|---|---|
| `Types` (types.dfy) | the shared type declarations: countries, statuses, request, record, processed-event message |
| `Text` (text.dfy) | JavaScript `toUpperCase`, `trim`, `startsWith`, and the `^\d{5}$` test |
| `Messages` (messages.dfy) | parsed JSON values, the request schema, the `detail` envelope, queue records |
| `Publishers` (publishers.dfy) | the SNS topic and the EventBridge bus, as append-only logs that may fail |
| `AppointmentStore` (appointment_store.dfy) | the appointment table: pure operations on a `Table` value and the class `AppointmentRepository` that performs them in place |
| `CountryRows` (country_rows.dfy) | the shared in-memory country database as a value, and the pure SELECT pipeline (filter, stable newest-first sort, projection) |
| `CountryStore` (country_store.dfy) | the mock database, the mock pool's `execute`, the memoising pool registry, and the country repository, as classes |
| `AppointmentHandler` (appointment_handler.dfy) | `handlePost`, `handleGet`, the status consumer's batch loop, and `handler`'s routing |
| `CountryHandler` (country_handler.dfy) | the batch closure `buildCountryAppointmentHandler` returns, and the Chile and Peru instances |
| `Wrappers` (wrappers.dfy) | `Option` and `Result` |

Every method that changes state is tied to a pure specification function of the old
state and its inputs:

- `HandlePost` to `PostSpec`
- `HandleStatusSqs` to `StatusBatch`
- `Handle` to `HandlerSpec`
- the country handler's `Handle` to `CountryBatch`
- `UpdateAppointmentToCompleted` to `Complete`
- `Execute` to `Append` and `Listing`

The lemmas state what those functions promise.

These are inputs of the operations:

- whether each SDK call fails;
- the fresh uuid of a saved record;
- the clock.

## Model

| member | source | states |
|---|---|---|
| Types.CountryISO.Code | src/index.d.ts:1 | every country has a two-character code |
| Types.ParseCountry | src/index.d.ts:1 | a string names a country exactly when it is the code of one, "PE" or "CL", and the country read has that code |
| Types.CountryCodeRoundTrip | src/index.d.ts:1 | reading a country's code gives that country back |
| Types.ParseStatus | src/index.d.ts:3 | a string is a status exactly when it is "pending" or "completed", and the status read has that name |
| Types.RecordOf | src/index.d.ts:11-16 | a record carries all the request's fields, plus the id, status and two timestamps it was given |
| Types.RecordDecomposes | src/index.d.ts:11-16 | every record is exactly its request part together with its id, status and timestamps |
| Types.ToProcessedEvent | src/index.d.ts:18-22 | a processed-event message carries the request's three fields unchanged |
| Types.FromProcessedEvent | src/index.d.ts:18-22 | the request read from a message converts back to that same message |
| Types.ProcessedEventRoundTrip | src/index.d.ts:5-9 | converting a request to a processed-event message and back is lossless |
| Text.UpperChar | src/adapters/AWSRdsMySqlRepository.ts:150 | ASCII lower-case letters move up by 32, U+0131 becomes "I" and U+017F becomes "S", every other character is returned unchanged; no result is an ASCII lower-case letter |
| Text.ToUpper | src/adapters/AWSRdsMySqlRepository.ts:150 | upper-casing with the model's one-for-one mapping keeps the length and upper-cases every character in its own place, so no ASCII lower-case letter is left |
| Text.TrimStart | src/adapters/AWSRdsMySqlRepository.ts:150 | the result is a suffix of the input; everything removed is whitespace; the result does not start with whitespace |
| Text.TrimEnd | src/adapters/AWSRdsMySqlRepository.ts:150 | the result is a prefix of the input; everything removed is whitespace; the result does not end with whitespace |
| Text.Trim | src/adapters/AWSRdsMySqlRepository.ts:150 | the result is the input with its leading and trailing whitespace removed: a contiguous slice of the input with only whitespace before and after it, neither starting nor ending with whitespace |
| Text.Utf16Length | src/handlers/appointment.ts:15-19 | the JavaScript length of a string, counting a character above U+FFFF as two UTF-16 units: between the number of characters and twice it, and equal to it for text in the Basic Multilingual Plane |
| Text.IsJsWhitespace | src/adapters/AWSRdsMySqlRepository.ts:150 | the characters `trim` removes, JavaScript's WhiteSpace and LineTerminator; `TrimStart`, `TrimEnd` and `Trim` state what is removed in its terms |
| Text.IsFiveDigits | src/handlers/appointment.ts:49 | the test `/^\d{5}$/`, exactly five ASCII digits; `HandleGet` and `GetExamples` state how the GET handler uses it |
| Text.UpperKeepsPrefix | src/adapters/AWSRdsMySqlRepository.ts:150-152 | upper-casing a string keeps the upper-cased prefix a prefix |
| Text.ToUpperIdempotent | src/adapters/AWSRdsMySqlRepository.ts:150 | upper-casing twice is upper-casing once |
| Text.UpperKeepsWhitespace | src/adapters/AWSRdsMySqlRepository.ts:150 | upper-casing neither creates nor removes whitespace |
| Text.TrimUpper | src/adapters/AWSRdsMySqlRepository.ts:150 | trimming and upper-casing commute |
| Text.TrimDropsLeading | src/adapters/AWSRdsMySqlRepository.ts:150 | a leading whitespace character does not change the trimmed text |
| Text.TrimOfTrimmed | src/adapters/AWSRdsMySqlRepository.ts:150 | text that neither starts nor ends with whitespace trims to itself |
| Messages.ValidateRequest | src/handlers/appointment.ts:15-19 | a value passes exactly when it is an object with insuredId a string of JavaScript length 5, scheduleId a safe number and countryISO a string of JavaScript length 2, and has no other key; what passes is well-formed and is the input object itself |
| Messages.AstralCharactersCountTwice | src/handlers/appointment.ts:15-19 | lengths are counted in UTF-16 units: "😀😀1" is an insuredId of length 5 and "😀" a countryISO of length 2, and both pass |
| Messages.ValidateRoundTrip | src/handlers/appointment.ts:15-19 | every well-formed request, as a JSON object, passes the schema unchanged |
| Messages.CountryMembershipNotChecked | src/handlers/appointment.ts:18 | a countryISO of two characters that is no country ("XX") passes the schema |
| Messages.UnknownKeyRejected | src/handlers/appointment.ts:15-19 | adding any key outside the three makes a valid object fail |
| Messages.DetailOf | src/handlers/appointment.ts:62-65 | a detail is read exactly when the body is an object whose `detail` is an object with a string insuredId; it carries that insuredId, the scheduleId when it is a number and the countryISO when it is a string |
| Messages.NumberField | src/handlers/appointment.ts:65 | a field is read as a number exactly when the key holds a JSON number, and then it is that number |
| Messages.StringField | src/handlers/appointment.ts:65 | a field is read as a string exactly when the key holds a JSON string, and then it is that string |
| Messages.DetailRoundTrip | src/handlers/appointment.ts:62-65 | every processed event, sent in its `detail` envelope, is read back with its three fields |
| Messages.NoDetailNoMessage | src/handlers/appointment.ts:63-64 | an object without `detail` yields no message |
| Messages.StringScheduleIdRead | src/handlers/appointment.ts:62-65 | a detail whose scheduleId is a string is still read, with its insuredId and countryISO and no usable scheduleId |
| Publishers.NotificationTopic.constructor | src/adapters/AWSSNSPublisher.ts:13-16 | a new topic has published nothing |
| Publishers.NotificationTopic.PublishAppointment | src/adapters/AWSSNSPublisher.ts:18-29 | the publish succeeds exactly when the SDK call does not fail; on success the log gains one notification, the request as message with its countryISO as routing attribute; on failure the log is unchanged |
| Publishers.ProcessedEntry | src/adapters/AWSEventBridgeEmitter.ts:16-24 | the entry carries source "appointment", detail type "AppointmentProcessed" and the message as detail |
| Publishers.EventBus.constructor | src/adapters/AWSEventBridgeEmitter.ts:11-13 | a new bus carries no entry |
| Publishers.EventBus.EmitProcessed | src/adapters/AWSEventBridgeEmitter.ts:15-28 | of the three SDK outcomes, only a throw makes the emit fail; the bus gains the message's entry exactly when the entry is put, and is unchanged when the call throws or returns with the entry dropped |
| CountryRows.Append | src/adapters/AWSRdsMySqlRepository.ts:157-164 | an insert puts the row at the end of the key's partition, and the earlier rows stay in place |
| CountryRows.AppendKeepsOthers | src/adapters/AWSRdsMySqlRepository.ts:157-164 | an insert leaves every other key's partition unchanged |
| CountryRows.TripleOfRow | src/adapters/AWSRdsMySqlRepository.ts:158-172 | storing a request and projecting its row gives the request back; only createdAt is dropped |
| CountryRows.FilterCountry | src/adapters/AWSRdsMySqlRepository.ts:170 | the filter keeps exactly the rows whose upper-cased countryISO is the key |
| CountryRows.InsertNewestMultiset | src/adapters/AWSRdsMySqlRepository.ts:171 | inserting into the sorted rows adds exactly that row |
| CountryRows.InsertNewestOrder | src/adapters/AWSRdsMySqlRepository.ts:171 | inserting into newest-first rows keeps them newest first |
| CountryRows.NewestFirstSortsAndPermutes | src/adapters/AWSRdsMySqlRepository.ts:171 | the sort's output is ordered by createdAt, non-increasing, and is a permutation of its input |
| CountryRows.InsertNewestStable | src/adapters/AWSRdsMySqlRepository.ts:171 | an inserted row goes ahead of the rows that share its createdAt, and their order is kept |
| CountryRows.NewestFirst | src/adapters/AWSRdsMySqlRepository.ts:171 | the sort by createdAt, newest first; `NewestFirstSortsAndPermutes` and `NewestFirstStable` prove it ordered, a permutation and stable |
| CountryRows.NewestFirstStable | src/adapters/AWSRdsMySqlRepository.ts:171 | the sort is stable: rows with equal createdAt keep their relative order |
| CountryRows.Project | src/adapters/AWSRdsMySqlRepository.ts:172 | each listed entry is its row's triple, in the same position |
| CountryRows.SelectedRows | src/adapters/AWSRdsMySqlRepository.ts:169-171 | the rows SELECT returns before projection: the key's partition filtered by country, then sorted; `SelectContract` states what they are |
| CountryRows.Listing | src/adapters/AWSRdsMySqlRepository.ts:169-173 | what SELECT returns for a key; `SelectContract`, `ListingAfterAppend` and `ListingOthersAfterAppend` state its contents and how an insert changes it |
| CountryRows.SelectContract | src/adapters/AWSRdsMySqlRepository.ts:169-173 | SELECT returns newest first a permutation of the partition's rows whose upper-cased countryISO is the key, and a row is returned exactly when it is such a row |
| CountryRows.FilterAppend | src/adapters/AWSRdsMySqlRepository.ts:170 | filtering a partition with one more row adds that row exactly when it is of the key's country |
| CountryRows.ListingAfterAppend | src/adapters/AWSRdsMySqlRepository.ts:157-172 | after an insert, the key's listing contains the row's triple when the row is of the key's country; otherwise the row is stored but the listing is unchanged |
| CountryRows.ListingOthersAfterAppend | src/adapters/AWSRdsMySqlRepository.ts:157-169 | an insert leaves the listings of all other keys unchanged |
| CountryStore.KeyOfIsCode | src/adapters/AWSRdsMySqlRepository.ts:147 | the upper-cased key of a country is its code |
| CountryStore.KeywordRecognised | src/adapters/AWSRdsMySqlRepository.ts:150-152 | a statement that starts with an upper-case keyword and does not end in whitespace normalises to that keyword's prefix |
| CountryStore.Normalize | src/adapters/AWSRdsMySqlRepository.ts:150 | `sql.trim().toUpperCase()`; `NormalFormClean`, `KeywordRecognised` and `RecognitionIgnoresCase` state what the normal form is |
| CountryStore.NormalFormClean | src/adapters/AWSRdsMySqlRepository.ts:150 | the normal form of a statement has no ASCII lower-case letter and neither starts nor ends with whitespace |
| CountryStore.IsInsert | src/adapters/AWSRdsMySqlRepository.ts:150-152 | a statement is an INSERT when its normal form starts with "INSERT INTO"; `InsertSqlIsInsert`, `RecognitionIgnoresCase` and `RecognitionIgnoresLeadingWhitespace` state which statements are |
| CountryStore.IsSelect | src/adapters/AWSRdsMySqlRepository.ts:150-168 | a statement is a SELECT when it is not an INSERT and its normal form starts with "SELECT"; `SelectSqlIsSelect`, `SelectPrefixed` and `DeleteUnsupported` state which statements are |
| CountryStore.InsertSqlIsInsert | src/adapters/AWSRdsMySqlRepository.ts:20-21 | the statement `storeAppointment` runs is recognised as an INSERT and not as a SELECT |
| CountryStore.SelectPrefixed | src/adapters/AWSRdsMySqlRepository.ts:168 | any statement whose normal form starts with SELECT is run as a SELECT, since it cannot also start with INSERT INTO |
| CountryStore.SelectSqlIsSelect | src/adapters/AWSRdsMySqlRepository.ts:31-35 | the statement `getAll` runs is recognised as a SELECT |
| CountryStore.RecognitionIgnoresCase | src/adapters/AWSRdsMySqlRepository.ts:150 | how a statement is recognised does not depend on its letter case |
| CountryStore.RecognitionIgnoresLeadingWhitespace | src/adapters/AWSRdsMySqlRepository.ts:150 | leading whitespace does not change how a statement is recognised |
| CountryStore.DeleteUnsupported | src/adapters/AWSRdsMySqlRepository.ts:176 | a statement that normalises to a DELETE is neither INSERT nor SELECT, so execution throws |
| CountryStore.InsertParams | src/adapters/AWSRdsMySqlRepository.ts:22 | the parameters `storeAppointment` binds have the expected kinds, and the INSERT turns them into the payload's row stamped `now` |
| CountryStore.MockDb.constructor | src/adapters/AWSRdsMySqlRepository.ts:144 | the shared database starts with no partition |
| CountryStore.MockPool.constructor | src/adapters/AWSRdsMySqlRepository.ts:146-147 | a pool's key is its country's upper-cased code, and the pool uses the shared database |
| CountryStore.MockPool.Execute | src/adapters/AWSRdsMySqlRepository.ts:149-177 | an INSERT without an array of at least four params throws and changes nothing; an INSERT with them appends one row to the pool's partition and returns no rows; a SELECT returns the listing and changes nothing; any other statement throws "Unsupported SQL" and changes nothing |
| CountryStore.PoolRegistry.constructor | src/adapters/AWSRdsMySqlRepository.ts:123-125 | a new registry caches no pool |
| CountryStore.PoolRegistry.GetPool | src/adapters/AWSRdsMySqlRepository.ts:127-134 | a cached key returns its cached pool and leaves the cache unchanged; a miss creates a fresh pool for the key and caches exactly it; every cached pool sits under its own key and uses the shared database |
| CountryStore.CountryRepository.constructor | src/adapters/AWSRdsMySqlRepository.ts:9-14 | a repository is bound to its country and gets a fresh, empty registry over the shared database |
| CountryStore.CountryRepository.StoreAppointment | src/adapters/AWSRdsMySqlRepository.ts:17-24 | the shared database gains exactly one row, the payload stamped `now`, at the end of the country's partition |
| CountryStore.CountryRepository.GetAll | src/adapters/AWSRdsMySqlRepository.ts:27-43 | the result is the country's listing, and the database is unchanged |
| CountryStore.SharedAcrossRepositories | src/adapters/AWSRdsMySqlRepository.ts:144-170 | a request of the country, stored through one repository, is listed by another repository of the same country |
| CountryStore.PoolMemoised | src/adapters/AWSRdsMySqlRepository.ts:127-134 | two getPool calls for a country return the same pool, which is then the cached one |
| AppointmentStore.NewRecord | src/adapters/AWSDynamoDBRepository.ts:26-35 | a saved record carries the request's fields and the fresh id, is pending, and has createdAt == updatedAt == now |
| AppointmentStore.Save | src/adapters/AWSDynamoDBRepository.ts:37-46 | a put adds exactly the new record under its id, keeps every other record, and keeps the table valid |
| AppointmentStore.Lookup | src/adapters/AWSDynamoDBRepository.ts:60-70 | every record returned is in the table and has the requested insuredId |
| AppointmentStore.ByInsured | src/adapters/AWSDynamoDBRepository.ts:62-69 | the query on the insuredId index returns only records of the table with that insuredId; `ByInsuredExact` shows it returns all of them |
| AppointmentStore.LookupFinds | src/adapters/AWSDynamoDBRepository.ts:60-70 | every listed record of the insured is returned |
| AppointmentStore.ByInsuredExact | src/adapters/AWSDynamoDBRepository.ts:60-70 | the query returns exactly the records of the table whose insuredId is the one asked for |
| AppointmentStore.SaveThenLookup | src/adapters/AWSDynamoDBRepository.ts:44-70 | after a save, the query for the request's insuredId returns the earlier result followed by the new record, and queries for other insured are unchanged |
| AppointmentStore.FirstPendingIndex | src/adapters/AWSDynamoDBRepository.ts:91-93 | the index found is the first pending record with the scheduleId and countryISO, or the end when there is none |
| AppointmentStore.FindPending | src/adapters/AWSDynamoDBRepository.ts:91-93 | `items.find` returns a pending record of the list with the scheduleId and countryISO, and finds nothing exactly when no record of the list is such a match |
| AppointmentStore.MarkCompleted | src/adapters/AWSDynamoDBRepository.ts:105-113 | the update sets status to completed and updatedAt to now, and keeps id, the request fields and createdAt |
| AppointmentStore.Complete | src/adapters/AWSDynamoDBRepository.ts:84-124 | a failing query throws a read error; a failing update throws an update error; after any error or a no-match, the table is unchanged; on success only the matched pending record of the insured changes, to its completed form; the table stays valid, keeps its ids, and every completed record stays as it was |
| AppointmentStore.CompleteNoMatch | src/adapters/AWSDynamoDBRepository.ts:90-97 | the call returns "no match" exactly when no record of the insured is pending with that scheduleId and countryISO |
| AppointmentStore.CompleteTakesFirst | src/adapters/AWSDynamoDBRepository.ts:91-93 | the completed record is the first pending match in lookup order |
| AppointmentStore.CompleteConsumesOne | src/adapters/AWSDynamoDBRepository.ts:91-119 | a successful completion removes exactly the completed record from the pending matches |
| AppointmentStore.PendingIdsEmpty | src/adapters/AWSDynamoDBRepository.ts:91-93 | with no pending-match id left, no record matches |
| AppointmentStore.CompleteIdempotent | src/adapters/AWSDynamoDBRepository.ts:91-97 | when at most one record matches, a redelivered completion finds nothing and changes nothing, and the record stays completed |
| AppointmentStore.AppointmentRepository.constructor | src/adapters/AWSDynamoDBRepository.ts:15-18 | the repository starts with an empty, valid table |
| AppointmentStore.AppointmentRepository.SaveAppointment | src/adapters/AWSDynamoDBRepository.ts:25-50 | a failing put throws a save error and changes nothing; otherwise the new pending record is returned and saved |
| AppointmentStore.AppointmentRepository.GetByInsuredId | src/adapters/AWSDynamoDBRepository.ts:58-75 | a failing query throws; otherwise exactly that insured's records are returned, in lookup order |
| AppointmentStore.AppointmentRepository.UpdateAppointmentToCompleted | src/adapters/AWSDynamoDBRepository.ts:84-124 | the result and the new table are those `Complete` specifies, and the table stays valid |
| AppointmentHandler.RouteOf | src/handlers/appointment.ts:77-88 | POST under "/appointments" goes to the intake; GET under "/appointments/" goes to the query; any other HTTP request gets 404; an event without an HTTP method goes to the status batch |
| AppointmentHandler.PostPrefixRoutes | src/handlers/appointment.ts:82-84 | a POST to "/appointments/00001" is an intake; GET "/appointments" and DELETE are not found |
| AppointmentHandler.PostSpec | src/handlers/appointment.ts:22-44 | the intake keeps the table valid; `PostRejectsMalformed`, `PostAccepts`, `PostFaultsPropagate` and `PostPublishesOnlySaved` state its answers, table and topic log |
| AppointmentHandler.PostRejectsMalformed | src/handlers/appointment.ts:24-32 | a body that does not parse gets 400 "Invalid JSON body"; one that fails the schema gets 400 "One or more fields are invalid"; neither saves nor publishes |
| AppointmentHandler.PostAccepts | src/handlers/appointment.ts:34-43 | a well-formed request with no fault is saved as a pending record under the fresh id, published once with its countryISO, answered 202 with `{id, pending, request}`, and is then among the insured's records |
| AppointmentHandler.PostPublishesOnlySaved | src/handlers/appointment.ts:34-43 | for every input: a publish happens only for a record that was saved, and with its triple; the answer is 202 exactly when it was published; every answer is 202 or 400, never 500; the table changes only by saving the validated request; a failing save publishes nothing |
| AppointmentHandler.PostFaultsPropagate | src/handlers/appointment.ts:34-42 | for a well-formed request a failing put escapes as a save error and changes neither table nor topic; a good put followed by a failing publish escapes as a publish error, with the record saved and nothing published |
| AppointmentHandler.HandlePost | src/handlers/appointment.ts:22-44 | the response, table and topic log are those `PostSpec` gives |
| AppointmentHandler.HandleGet | src/handlers/appointment.ts:47-55 | 400 exactly when the parameter is missing or not five digits; a 200 lists exactly the records of that insured; the table is only read |
| AppointmentHandler.GetSpec | src/handlers/appointment.ts:47-55 | 400 exactly when the parameter is missing or not five digits; a throw exactly when a valid parameter meets a failing query; a 200 lists only records of the table with that insuredId |
| AppointmentHandler.GetExamples | src/handlers/appointment.ts:48-54 | "abc" and a missing parameter get 400; "00001" gets 200 with that insured's records |
| AppointmentHandler.StatusStep | src/handlers/appointment.ts:61-69 | a record without a readable detail fails and changes nothing; a failed record changes nothing; with no SDK fault a record fails exactly when it has no readable detail; under any faults it fails exactly when it has no detail, or the query throws, or a pending match was found and its update throws (`StatusFails`); the table stays valid with the same ids and no completed record changes |
| AppointmentHandler.UnmatchableDetailAcknowledged | src/handlers/appointment.ts:61-69 | a detail without a numeric scheduleId or a string countryISO matches no record: the table is unchanged and the record fails only when the query does |
| AppointmentHandler.BatchAppend | src/handlers/appointment.ts:60-70 | handling one more record is one more step from the table the earlier records left |
| AppointmentHandler.BatchLoop | src/handlers/appointment.ts:59-71 | the loop over a batch for any per-record step, collecting the ids of failed records; `BatchAppend`, `BatchSplits`, `BatchFaultsAgree` and `BatchFailuresAreRecords` state how it behaves |
| AppointmentHandler.StatusBatch | src/handlers/appointment.ts:58-72 | `handleStatusSqs` on a batch, the loop over `StatusStep`; `StatusBatchNoFaults`, `StatusBatchReadFaults`, `StatusKeepsCompleted` and `StatusExample` state its failures and its table |
| AppointmentHandler.BatchFailuresAreRecords | src/handlers/appointment.ts:59-71 | the failures are message ids of the batch, in input order, each record at most once |
| AppointmentHandler.BatchSplits | src/handlers/appointment.ts:60-70 | a failure does not stop the batch: handling `a + b` is handling `a`, then `b` from the table `a` left, with the failures concatenated |
| AppointmentHandler.BatchFaultsAgree | src/handlers/appointment.ts:60-70 | the batch depends on the faults only through those its records meet |
| AppointmentHandler.StatusBatchNoFaults | src/handlers/appointment.ts:58-72 | with no SDK fault, the failures are exactly the ids, in order, of the records without a `detail` object carrying a string insuredId; a no-match, including a detail whose scheduleId or countryISO has the wrong type, is not a failure |
| AppointmentHandler.StatusKeepsCompleted | src/handlers/appointment.ts:58-72 | a whole batch keeps the table valid, adds and removes no record, and never changes a completed record |
| AppointmentHandler.StatusExample | src/handlers/appointment.ts:62-69 | of a valid detail and a body without one, only the second ("m1") fails |
| AppointmentHandler.StatusBatchReadFaults | src/handlers/appointment.ts:58-72 | when queries may throw but no update does, the failures are exactly the ids, in batch order, of the records without a detail and of those whose query throws; later records are still handled |
| AppointmentHandler.HandleStatusRecord | src/handlers/appointment.ts:61-69 | one record's failure flag and new table are those `StatusStep` gives; a detail that cannot match still runs the query |
| AppointmentHandler.HandleStatusSqs | src/handlers/appointment.ts:58-72 | the failures and the new table are those `StatusBatch` gives, whose failures are described by `StatusStep`, `StatusBatchNoFaults`, `StatusBatchReadFaults` and `BatchFailuresAreRecords` |
| AppointmentHandler.HandlerSpec | src/handlers/appointment.ts:77-88 | every invocation keeps the table valid |
| AppointmentHandler.HandlerRoutes | src/handlers/appointment.ts:77-88 | only the intake publishes; only the intake and the status batch change the table; the outcome is a batch response exactly for a queue event |
| AppointmentHandler.Handle | src/handlers/appointment.ts:77-88 | the outcome, table and topic log are those `HandlerSpec` gives |
| CountryHandler.Parse | src/handlers/appointmentCountryHandler.ts:24-27 | every record becomes exactly one item |
| CountryHandler.ParseReadsEachRecord | src/handlers/appointmentCountryHandler.ts:24-27 | each item is its record's message id paired with the outcome of validating that record's body |
| CountryHandler.ValidRequests | src/handlers/appointmentCountryHandler.ts:25-27 | there are no more valid requests than records; their contents are stated by `ValidRequestsInOrder` (the valid payloads, in batch order) and `ValidRequestsSplit` (a request is listed exactly when some record carries it as a valid payload, and valid requests plus invalid ids count the records) |
| CountryHandler.ValidRequestsInOrder | src/handlers/appointmentCountryHandler.ts:25-27 | the valid requests are the payloads that pass the schema, kept in batch order |
| CountryHandler.ValidRequestsSplit | src/handlers/appointmentCountryHandler.ts:25-27 | every record gives either a valid request or an invalid id, and a request is valid exactly when some record carries it |
| CountryHandler.CountryBatchAppend | src/handlers/appointmentCountryHandler.ts:22-40 | handling one more record is one more step from the rows the earlier records left |
| CountryHandler.CountryStep | src/handlers/appointmentCountryHandler.ts:23-39 | a record fails exactly when its payload is invalid or the emit throws; a failed record emits nothing; unless its entry is dropped, a record that does not fail emits; a valid payload's row is always appended, whatever the emit does, and an invalid payload adds no row |
| CountryHandler.CountryBatch | src/handlers/appointmentCountryHandler.ts:21-42 | the country handler's loop over a batch; `CountryBatchOutcome`, `CountryBatchStores`, `CountryBatchNoFaults` and `CountryBatchAccounts` state its failures, rows and entries |
| CountryHandler.ReportedOrEmitted | src/handlers/appointmentCountryHandler.ts:23-39 | no record is both reported and emitted; unless its entry is dropped, each record is one of the two |
| CountryHandler.CountryBatchOutcome | src/handlers/appointmentCountryHandler.ts:21-42 | for any emit outcomes, the failures are the ids of the reported records and the entries those of the emitted records, both in batch order |
| CountryHandler.OutcomeCounts | src/handlers/appointmentCountryHandler.ts:21-42 | each record adds at most one failure or entry, and exactly one when no entry is dropped |
| CountryHandler.CountryBatchStores | src/handlers/appointmentCountryHandler.ts:22-40 | whatever the emits do, the partition gains exactly one row per valid request, in batch order, after the rows it had |
| CountryHandler.CountryBatchNoFaults | src/handlers/appointmentCountryHandler.ts:22-40 | with no failing emit, the failures are exactly the ids of the invalid payloads, and every valid request is emitted once, in order, with its identical triple |
| CountryHandler.CountryBatchAccounts | src/handlers/appointmentCountryHandler.ts:22-40 | failures and entries together number at most the records, and exactly the records when no entry is dropped; by `ReportedOrEmitted` no record is both |
| CountryHandler.CountryFailuresAreRecords | src/handlers/appointmentCountryHandler.ts:21-42 | the failures are the message ids of the batch records, in batch order, each record at most once |
| CountryHandler.CountryEmitsOnlyStored | src/handlers/appointmentCountryHandler.ts:29-35 | only valid, and hence stored, requests are emitted, in batch order |
| CountryHandler.EmittedAreValid | src/handlers/appointmentCountryHandler.ts:29-35 | the emitted entries are those of a subsequence of the valid requests |
| CountryHandler.CountryBatchSingle | src/handlers/appointmentCountryHandler.ts:22-40 | a batch of one record is that record's step |
| CountryHandler.StoresAndEmitsValidPayload | src/handlers/appointmentCountryHandler.ts:27-35 | the valid payload `12345/99/PE` gives no failure, one stored row and one emitted entry with the same triple |
| CountryHandler.RejectsShortInsuredId | src/handlers/appointmentCountryHandler.ts:25-26 | an insuredId of two characters gives the failure "m0", and stores and emits nothing |
| CountryHandler.ForeignPayloadStoredNotListed | src/handlers/appointmentCountryHandler.ts:25-29 | a valid payload of another country is stored in this handler's partition and emitted, yet the partition's listing is unchanged |
| CountryHandler.CountryAppointmentHandler.constructor | src/handlers/appointmentCountryHandler.ts:10-12 | the handler is bound to its country, with a fresh repository over the shared database and the shared bus |
| CountryHandler.CountryAppointmentHandler.HandleRecord | src/handlers/appointmentCountryHandler.ts:23-39 | one record's failure flag, new partition and emitted entries are those `CountryStep` gives; no other partition changes |
| CountryHandler.CountryAppointmentHandler.Handle | src/handlers/appointmentCountryHandler.ts:20-43 | the failures, the handler's new partition and the emitted entries are those `CountryBatch` gives for the parsed records; no other partition changes |
| CountryHandler.BuildCountryHandlers | src/handlers/appointmentCl.ts:5 | the Chile and Peru handlers (appointmentCl.ts and appointmentPe.ts) are the same handler bound to CL and PE, over the shared database and bus |

## Left out

- The AWS SDK clients and their `send` calls are not modelled. Each call's outcome is an input: a DynamoDB or SNS call either succeeds or throws. A PutEvents call succeeds, throws, or returns with its one entry dropped (FailedEntryCount 1). `emitProcessed` ignores the response, so a dropped entry is acknowledged and never emitted. DynamoDB, SNS and EventBridge are foreign network services.
- Error message texts of thrown errors are not modelled. A thrown error is identified by its kind (read, save or update failure, unsupported SQL, bad INSERT params).
- `JSON.parse` and `JSON.stringify` are not modelled. A body is the parsed value, or `None` where parsing throws. The text format belongs to a foreign library.
- `Messages.ValidateRequest` models the Joi schema as a predicate. Joi's conversion of numeric strings to numbers is left out. JSON numbers are integers, so fractional `scheduleId`s are not modelled.
- `Messages.DetailOf` counts a record as failed when its `detail` is missing, is not an object, or has no string `insuredId`. In the source a missing or falsy `detail` throws. A truthy detail without a string `insuredId` reaches the query with an undefined or non-string key value, which the DynamoDB document client or the string-keyed `insuredId-index` rejects. That rejection belongs to the SDK and is not modelled. A detail with a string `insuredId` is always queried, and a `scheduleId` that is not a number or a `countryISO` that is not a string matches no record, as `===` does in `items.find`.
- `Text.UpperChar` maps one character to one, and only ASCII letters, U+0131 and U+017F. JavaScript's `toUpperCase` also maps the other Unicode letters, some of them to several characters (U+00DF to "SS", U+1E97 to "T" followed by U+0308). So a statement such as "selec" followed by U+1E97 normalises in JavaScript to text that starts with "SELECT" and runs as a query, while in the model `CountryStore.MockPool.Execute` rejects it as unsupported. Only statements whose leading keyword gets a letter from such a mapping differ; the two statements the repository runs are ASCII (`InsertSqlIsInsert`, `SelectSqlIsSelect`).
- `Text.ToUpper`: keeping the length holds for the model's one-for-one mapping, not for JavaScript's `toUpperCase`, which lengthens text containing characters such as U+00DF or U+1E97.
- `CountryStore.MockPool.Execute` requires, for an INSERT only, that its first four params, when there are at least four, are text or numbers. A SELECT or any other statement accepts any params, which it ignores. The source coerces any value with `+` and `new Date(...)`, and floating-point and invalid-date results are not modelled.
- `randomUUID` and `new Date()` are parameters. The uuid is fresh for the table, and the clock is one integer of epoch milliseconds. The string encoding of the DynamoDB timestamps is not modelled.
- `CountryHandler.CountryBatch` passes one clock value to every row of a batch. The source reads `new Date()` for each INSERT (src/adapters/AWSRdsMySqlRepository.ts:22), so later rows get later or equal createdAt values and SELECT, sorting newest first, lists a batch's later rows first. In the model a batch's rows share one createdAt, and the stable sort lists them in insertion order.
- `AppointmentHandler.StatusBatch` passes one clock value to every update of a batch. The source reads `new Date()` for each update (src/adapters/AWSDynamoDBRepository.ts:113), so records completed in one batch share an updatedAt in the model.
- `AppointmentStore.ByInsured` returns the insured's records in the order they were put. The `insuredId-index` query has no sort key, so DynamoDB promises no order. The query is also eventually consistent and reads only its first page: the source never follows `LastEvaluatedKey`. The model returns every record of the insured, as of the latest write.
- `AppointmentStore.CompleteTakesFirst` picks the first pending match in put order. The source picks the first in the order the index returns, which DynamoDB does not fix.
- `AppointmentStore.ByInsuredExact` and `AppointmentStore.SaveThenLookup` assume a read sees every earlier write and a single page holds all of an insured's records. Eventual consistency and pagination are not modelled.
- The conditional write `status = pending` in `updateAppointmentToCompleted` is not a branch of the model. The model is sequential, so the guard always holds right after the find. Races between concurrent invocations are concurrency.
- `AppointmentStore.Complete` states its guarantees about validity, the record it completes and completed records only for valid tables. Every table the repository holds is valid.
- `AppointmentStore.CompleteIdempotent` holds when at most one pending record matches the triple. With several matches, each redelivery completes the next one, as the source does.
- The 500 answer of `handlePost` (src/handlers/appointment.ts:35-37) is unreachable, because `saveAppointment` either returns a record or throws. `AppointmentHandler.PostPublishesOnlySaved` proves that it never occurs.
- The mock store of the source cannot fail for the parameters `storeAppointment` passes. So the model has no path in which a country store throws and the record is reported without a row.
- Logging (`Logger`, `console.error`) and the configuration in src/config/env.ts are left out. They produce no state the core reads.
- The registry's `strategy` and `EnvCountryDbConfigStrategy` only read configuration and are left out. The commented-out mysql pool is dead code.
- src/handlers/appointmentCl.ts and src/handlers/appointmentPe.ts are one line of wiring each. Both are modelled by `CountryHandler.BuildCountryHandlers`.
- The `SQSHandler`'s context and callback arguments are left out. The handler does not use them.
