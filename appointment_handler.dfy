/**
 * The appointment Lambda: the HTTP intake (`POST /appointments`,
 * `GET /appointments/{insuredId}`), the status consumer fed by the status
 * queue, and the entry point that routes between them.
 *
 * The handler's two singletons, the appointment table and the SNS topic, are
 * passed to every method. Faults of the SDK calls, the fresh uuid and the
 * clock are inputs. Each method is tied to a pure specification function
 * (`PostSpec`, `GetSpec`, `StatusBatch`, `HandlerSpec`), and the lemmas below
 * state what those functions promise.
 */
module AppointmentHandler {
  import opened Wrappers
  import opened Types
  import opened Text
  import opened Messages
  import opened Publishers
  import opened AppointmentStore

  /** Which SDK calls fail while one request or one queue record is handled. */
  datatype Fault = Fault(queryFails: bool, writeFails: bool, publishFails: bool)

  const NoFault: Fault := Fault(false, false, false)

  /** The faults of record `i` of a batch; records past the end of `faults` see none. */
  function FaultAt(faults: seq<Fault>, i: int): Fault {
    if 0 <= i < |faults| then faults[i] else NoFault
  }

  /** The JSON bodies the handler answers with. */
  datatype ResponseBody =
    | Message(text: string)
    | Accepted(id: string, status: AppointmentStatus, request: AppointmentRequest)
    | Items(items: seq<AppointmentRecord>)

  datatype HttpResponse = HttpResponse(statusCode: int, body: ResponseBody)

  /** Errors that escape the handler (the Lambda invocation fails). */
  datatype HandlerError =
    | StoreFailed(cause: StoreError)
    | PublishFailed
    | RecordsMissing   // an event routed to the status consumer has no `Records`

  datatype Outcome =
    | Http(response: HttpResponse)
    | Batch(batchItemFailures: seq<string>)
    | Thrown(error: HandlerError)

  /**
   * An incoming event: an HTTP API request (method, raw path, parsed body,
   * `insuredId` path parameter) or a queue batch. An `httpMethod` of "" plays
   * the part of a missing `requestContext.http.method`.
   */
  datatype Event =
    | HttpEvent(httpMethod: string, rawPath: string, body: Option<Json>, insuredIdParam: Option<string>)
    | SqsEvent(records: seq<SqsRecord>)

  const InvalidJsonMessage: string := "Invalid JSON body"
  const InvalidFieldsMessage: string := "One or more fields are invalid"
  const InvalidInsuredIdMessage: string := "insuredId path parameter must be exactly five digits"
  const NotFoundMessage: string := "Not Found"

  function BadRequest(message: string): HttpResponse {
    HttpResponse(400, Message(message))
  }

  // ---------------------------------------------------------------- routing

  datatype Route = PostRoute | GetRoute | NotFoundRoute | StatusRoute

  /** Where `handler` sends an event. */
  function RouteOf(e: Event): (r: Route)
    ensures r == PostRoute <==> e.HttpEvent? && e.httpMethod == "POST" && StartsWith(e.rawPath, "/appointments")
    ensures r == GetRoute <==> e.HttpEvent? && e.httpMethod == "GET" && StartsWith(e.rawPath, "/appointments/")
    ensures r == StatusRoute <==> e.SqsEvent? || e.httpMethod == ""
  {
    if e.HttpEvent? && e.httpMethod != "" then
      if e.httpMethod == "POST" && StartsWith(e.rawPath, "/appointments") then PostRoute
      else if e.httpMethod == "GET" && StartsWith(e.rawPath, "/appointments/") then GetRoute
      else NotFoundRoute
    else StatusRoute
  }

  /** A POST to any path under the prefix, even one naming an insured, is an intake. */
  lemma PostPrefixRoutes()
    ensures RouteOf(HttpEvent("POST", "/appointments/00001", None, None)) == PostRoute
    ensures RouteOf(HttpEvent("GET", "/appointments", None, None)) == NotFoundRoute
    ensures RouteOf(HttpEvent("DELETE", "/appointments/00001", None, None)) == NotFoundRoute
  {
    assert "/appointments/00001"[..13] == "/appointments";
    assert !StartsWith("/appointments", "/appointments/");
  }

  // ------------------------------------------------------------------- POST

  /**
   * `handlePost` on the table `t` and the topic log `log`: the response and
   * the new table and log. A failed put or publish escapes as an error; a
   * failed publish leaves the record saved.
   */
  function PostSpec(t: Table, log: seq<Notification>, body: Option<Json>, id: string, now: int, fault: Fault)
    : (out: (Outcome, Table, seq<Notification>))
    requires ValidTable(t) && id !in t.items
    ensures ValidTable(out.1)
  {
    if body.None? then (Http(BadRequest(InvalidJsonMessage)), t, log)
    else match ValidateRequest(body.value)
      case None => (Http(BadRequest(InvalidFieldsMessage)), t, log)
      case Some(request) =>
        if fault.writeFails then (Thrown(StoreFailed(SaveFailed)), t, log)
        else
          var t' := Save(t, request, id, now);
          var created := NewRecord(request, id, now);
          if fault.publishFails then (Thrown(PublishFailed), t', log)
          else
            var published := log + [Notification(created.Request(), created.countryISO)];
            (Http(HttpResponse(202, Accepted(created.id, created.status, request))), t', published)
  }

  /** Input that fails to parse or to validate is answered with 400 and changes nothing. */
  lemma PostRejectsMalformed(t: Table, log: seq<Notification>, body: Option<Json>, id: string, now: int, fault: Fault)
    requires ValidTable(t) && id !in t.items
    requires ValidateBody(body).None?
    ensures
      var out := PostSpec(t, log, body, id, now, fault);
      && out.0 == Http(BadRequest(if body.None? then InvalidJsonMessage else InvalidFieldsMessage))
      && out.1 == t && out.2 == log
  {
  }

  /**
   * A well-formed request, with no fault, is saved as a pending record under
   * the fresh id, published once with its countryISO as routing attribute,
   * answered with 202, and is then among the insured's records.
   */
  lemma {:induction false} PostAccepts(t: Table, log: seq<Notification>, request: AppointmentRequest, id: string, now: int)
    requires ValidTable(t) && id !in t.items && WellFormed(request)
    ensures
      var out := PostSpec(t, log, Some(RequestJson(request)), id, now, NoFault);
      && out.0 == Http(HttpResponse(202, Accepted(id, Pending, request)))
      && out.1 == Save(t, request, id, now)
      && out.2 == log + [Notification(request, request.countryISO)]
      && NewRecord(request, id, now) in ByInsured(out.1, request.insuredId)
  {
    ValidateRoundTrip(request);
    SaveThenLookup(t, request, id, now, request.insuredId);
  }

  /**
   * For every input: the request is published only if it was saved, it is
   * answered 202 exactly when it was published, the 500 answer never occurs,
   * and the table changes only by the new pending record.
   */
  lemma PostPublishesOnlySaved(t: Table, log: seq<Notification>, body: Option<Json>, id: string, now: int, fault: Fault)
    requires ValidTable(t) && id !in t.items
    ensures
      var out := PostSpec(t, log, body, id, now, fault);
      && (out.2 != log ==> id in out.1.items && out.2 == log + [Notification(out.1.items[id].Request(), out.1.items[id].countryISO)])
      && (out.0.Http? && out.0.response.statusCode == 202 <==> out.2 != log)
      && (out.0.Http? ==> out.0.response.statusCode == 202 || out.0.response.statusCode == 400)
      && (out.1 != t ==> ValidateBody(body).Some? && out.1 == Save(t, ValidateBody(body).value, id, now))
      && (out.0 == Thrown(StoreFailed(SaveFailed)) ==> out.1 == t && out.2 == log)
  {
  }

  /**
   * The faults of a well-formed request: a failing put escapes and changes
   * nothing; a failing publish after a good put escapes and leaves the
   * record saved but unpublished.
   */
  lemma PostFaultsPropagate(t: Table, log: seq<Notification>, body: Option<Json>, id: string, now: int, fault: Fault)
    requires ValidTable(t) && id !in t.items
    requires ValidateBody(body).Some?
    ensures fault.writeFails ==> PostSpec(t, log, body, id, now, fault) == (Thrown(StoreFailed(SaveFailed)), t, log)
    ensures !fault.writeFails && fault.publishFails ==>
      PostSpec(t, log, body, id, now, fault) == (Thrown(PublishFailed), Save(t, ValidateBody(body).value, id, now), log)
  {
  }

  /** `handlePost`. */
  method HandlePost(store: AppointmentRepository, topic: NotificationTopic, body: Option<Json>, id: string, now: int, fault: Fault)
    returns (o: Outcome)
    requires store.Valid() && id !in store.items
    modifies store, topic
    ensures store.Valid()
    ensures (o, store.State(), topic.published) == PostSpec(old(store.State()), old(topic.published), body, id, now, fault)
  {
    if body.None? {
      return Http(BadRequest(InvalidJsonMessage));
    }
    var validated := ValidateRequest(body.value);
    if validated.None? {
      return Http(BadRequest(InvalidFieldsMessage));
    }
    var saved := store.SaveAppointment(validated.value, id, now, fault.writeFails);
    if saved.Failure? {
      return Thrown(StoreFailed(saved.error));
    }
    var created := saved.value;
    var ok := topic.PublishAppointment(created.Request(), fault.publishFails);
    if !ok {
      return Thrown(PublishFailed);
    }
    o := Http(HttpResponse(202, Accepted(created.id, created.status, validated.value)));
  }

  // -------------------------------------------------------------------- GET

  /** `handleGet` on the table `t`. */
  function GetSpec(t: Table, param: Option<string>, fault: Fault): (o: Outcome)
    ensures o == Http(BadRequest(InvalidInsuredIdMessage)) <==> param.None? || !IsFiveDigits(param.value)
    ensures o.Thrown? <==> param.Some? && IsFiveDigits(param.value) && fault.queryFails
    ensures o.Http? && o.response.statusCode == 200 ==>
      && param.Some? && o.response.body.Items?
      && forall r :: r in o.response.body.items ==> r in t.items.Values && r.insuredId == param.value
  {
    if param.None? || !IsFiveDigits(param.value) then Http(BadRequest(InvalidInsuredIdMessage))
    else if fault.queryFails then Thrown(StoreFailed(ReadFailed(param.value)))
    else Http(HttpResponse(200, Items(ByInsured(t, param.value))))
  }

  /**
   * `handleGet`: 400 unless the parameter is five digits; otherwise exactly
   * the records of that insured, with 200. The table is only read.
   */
  method HandleGet(store: AppointmentRepository, param: Option<string>, fault: Fault) returns (o: Outcome)
    requires store.Valid()
    ensures o == GetSpec(store.State(), param, fault)
    ensures o == Http(BadRequest(InvalidInsuredIdMessage)) <==> param.None? || !IsFiveDigits(param.value)
    ensures o.Http? && o.response.statusCode == 200 ==>
      && param.Some? && IsFiveDigits(param.value) && o.response.body.Items?
      && forall r :: r in o.response.body.items <==> r in store.items.Values && r.insuredId == param.value
  {
    if param.None? || !IsFiveDigits(param.value) {
      return Http(BadRequest(InvalidInsuredIdMessage));
    }
    var items := store.GetByInsuredId(param.value, fault.queryFails);
    if items.Failure? {
      return Thrown(StoreFailed(items.error));
    }
    o := Http(HttpResponse(200, Items(items.value)));
  }

  /** The parameters of the two GET examples: "00001" is accepted, "abc" is not. */
  lemma GetExamples(t: Table)
    ensures GetSpec(t, Some("abc"), NoFault) == Http(BadRequest(InvalidInsuredIdMessage))
    ensures GetSpec(t, Some("00001"), NoFault) == Http(HttpResponse(200, Items(ByInsured(t, "00001"))))
    ensures GetSpec(t, None, NoFault) == Http(BadRequest(InvalidInsuredIdMessage))
  {
  }

  // ------------------------------------------------------- status consumer

  /**
   * One record of the status queue against the table: whether it is a batch
   * failure, and the new table. A record fails when its body has no detail
   * or the completion throws; finding no pending match is not a failure. A
   * detail whose scheduleId is no number or whose countryISO is no string
   * is still queried, and then matches no record.
   */
  function StatusStep(t: Table, record: SqsRecord, now: int, fault: Fault): (out: (bool, Table))
    ensures out.1.order == t.order
    ensures ValidTable(t) ==> ValidTable(out.1) && out.1.items.Keys == t.items.Keys
    ensures ValidTable(t) ==> forall id :: id in t.items && t.items[id].status == Completed ==> out.1.items[id] == t.items[id]
    ensures DetailOf(record.body).None? ==> out == (true, t)
    ensures out.0 ==> out.1 == t
    ensures !fault.queryFails && !fault.writeFails ==> (out.0 <==> DetailOf(record.body).None?)
    ensures out.0 <==> StatusFails(t, record, fault)
  {
    match DetailOf(record.body)
    case None => (true, t)
    case Some(d) =>
      if d.scheduleId.Some? && d.countryISO.Some? then
        var (r, t') := Complete(t, d.insuredId, d.scheduleId.value, d.countryISO.value, now, fault.queryFails, fault.writeFails);
        (r.Failure?, t')
      else (fault.queryFails, t)
  }

  /**
   * When a status record is a batch failure, under any faults: it has no
   * detail, or the query throws, or the update of the pending match it
   * found throws. A failing update with nothing to update is not reached.
   */
  predicate StatusFails(t: Table, record: SqsRecord, fault: Fault) {
    || DetailOf(record.body).None?
    || fault.queryFails
    || (var d := DetailOf(record.body).value;
        && d.scheduleId.Some? && d.countryISO.Some? && fault.writeFails
        && FindPending(ByInsured(t, d.insuredId), d.scheduleId.value, d.countryISO.value).Some?)
  }

  /**
   * A detail with a string scheduleId, say, is acknowledged unless the query
   * throws, and changes nothing: no stored record has that scheduleId.
   */
  lemma UnmatchableDetailAcknowledged(t: Table, record: SqsRecord, now: int, fault: Fault)
    requires DetailOf(record.body).Some?
    requires DetailOf(record.body).value.scheduleId.None? || DetailOf(record.body).value.countryISO.None?
    ensures StatusStep(t, record, now, fault) == (fault.queryFails, t)
  {
  }

  /** `StatusStep` at clock `now`, as the step of the batch loop. */
  function StatusStepAt(now: int): (Table, SqsRecord, Fault) -> (bool, Table) {
    (t, record, fault) => StatusStep(t, record, now, fault)
  }

  /**
   * The batch loop for any per-record step: every record is attempted in
   * order against the table the previous ones left, and the id of each
   * record whose step fails is collected. Record `i` meets fault `faults[i]`.
   */
  function BatchLoop(step: (Table, SqsRecord, Fault) -> (bool, Table), t: Table, records: seq<SqsRecord>, faults: seq<Fault>)
    : (out: (seq<string>, Table))
    decreases |records|
  {
    if records == [] then ([], t)
    else
      var n := |records| - 1;
      var prev := BatchLoop(step, t, records[..n], faults);
      var result := step(prev.1, records[n], FaultAt(faults, n));
      (if result.0 then prev.0 + [records[n].messageId] else prev.0, result.1)
  }

  /** `handleStatusSqs` on a batch: the ids of the failed records, in order, and the final table. */
  function StatusBatch(t: Table, records: seq<SqsRecord>, now: int, faults: seq<Fault>): (seq<string>, Table) {
    BatchLoop(StatusStepAt(now), t, records, faults)
  }

  /** One more record of the batch is one more step. */
  lemma BatchAppend(step: (Table, SqsRecord, Fault) -> (bool, Table), t: Table, records: seq<SqsRecord>, r: SqsRecord, faults: seq<Fault>)
    ensures
      var prev := BatchLoop(step, t, records, faults);
      var result := step(prev.1, r, FaultAt(faults, |records|));
      BatchLoop(step, t, records + [r], faults) == (if result.0 then prev.0 + [r.messageId] else prev.0, result.1)
  {
    assert (records + [r])[..|records|] == records;
  }

  /** The failures are record ids, in batch order, each record at most once. */
  lemma {:induction false} BatchFailuresAreRecords(step: (Table, SqsRecord, Fault) -> (bool, Table), t: Table, records: seq<SqsRecord>, faults: seq<Fault>)
    ensures Subsequence(BatchLoop(step, t, records, faults).0, MessageIds(records))
    decreases |records|
  {
    if records != [] {
      var n := |records| - 1;
      var id := records[n].messageId;
      BatchFailuresAreRecords(step, t, records[..n], faults);
      SubsequenceStep(BatchLoop(step, t, records[..n], faults).0, BatchLoop(step, t, records, faults).0, MessageIds(records[..n]), id);
      assert MessageIds(records) == MessageIds(records[..n]) + [id];
    }
  }

  /** The faults of a second part, listed after those of the first, are found at shifted positions. */
  lemma FaultAtShift(fa: seq<Fault>, fb: seq<Fault>, i: nat)
    ensures FaultAt(fa + fb, |fa| + i) == FaultAt(fb, i)
  {
  }

  /**
   * A failure does not stop the batch: handling `a + b` is handling `a` and
   * then `b` from where `a` left the table.
   */
  lemma {:induction false} BatchSplits(step: (Table, SqsRecord, Fault) -> (bool, Table), t: Table, a: seq<SqsRecord>, b: seq<SqsRecord>, fa: seq<Fault>, fb: seq<Fault>)
    requires |fa| == |a|
    ensures
      var first := BatchLoop(step, t, a, fa);
      var second := BatchLoop(step, first.1, b, fb);
      BatchLoop(step, t, a + b, fa + fb) == (first.0 + second.0, second.1)
    decreases |b|
  {
    if b == [] {
      BatchSplitsBase(step, t, a, fa, fb);
    } else {
      BatchSplits(step, t, a, b[..|b| - 1], fa, fb);
      BatchSplitsStep(step, t, a, b, fa, fb);
    }
  }

  lemma BatchSplitsBase(step: (Table, SqsRecord, Fault) -> (bool, Table), t: Table, a: seq<SqsRecord>, fa: seq<Fault>, fb: seq<Fault>)
    requires |fa| == |a|
    ensures
      var first := BatchLoop(step, t, a, fa);
      BatchLoop(step, t, a + [], fa + fb) == (first.0 + [], first.1)
  {
    assert a + [] == a;
    BatchFaultsAgree(step, t, a, fa + fb, fa);
    var first := BatchLoop(step, t, a, fa);
    assert first.0 + [] == first.0;
  }

  lemma BatchSplitsStep(step: (Table, SqsRecord, Fault) -> (bool, Table), t: Table, a: seq<SqsRecord>, b: seq<SqsRecord>, fa: seq<Fault>, fb: seq<Fault>)
    requires |fa| == |a| && b != []
    requires
      var first := BatchLoop(step, t, a, fa);
      var second := BatchLoop(step, first.1, b[..|b| - 1], fb);
      BatchLoop(step, t, a + b[..|b| - 1], fa + fb) == (first.0 + second.0, second.1)
    ensures
      var first := BatchLoop(step, t, a, fa);
      var second := BatchLoop(step, first.1, b, fb);
      BatchLoop(step, t, a + b, fa + fb) == (first.0 + second.0, second.1)
  {
    var first := BatchLoop(step, t, a, fa);
    var n := |b| - 1;
    var init, r := b[..n], b[n];
    var second := BatchLoop(step, first.1, init, fb);
    assert b == init + [r];
    AppendAssociates(a, init, [r]);
    FaultAtShift(fa, fb, |init|);
    BatchAppend(step, t, a + init, r, fa + fb);
    BatchAppend(step, first.1, init, r, fb);
    AppendAssociates(first.0, second.0, [r.messageId]);
  }

  /** Two fault lists that agree on every record give the same batch result. */
  lemma {:induction false} BatchFaultsAgree(step: (Table, SqsRecord, Fault) -> (bool, Table), t: Table, records: seq<SqsRecord>, f: seq<Fault>, g: seq<Fault>)
    requires forall i :: 0 <= i < |records| ==> FaultAt(f, i) == FaultAt(g, i)
    ensures BatchLoop(step, t, records, f) == BatchLoop(step, t, records, g)
    decreases |records|
  {
    if records != [] {
      BatchFaultsAgree(step, t, records[..|records| - 1], f, g);
    }
  }

  /** The ids of the records whose body carries no `detail` object with a string insuredId. */
  function MissingDetailIds(records: seq<SqsRecord>): (ids: seq<string>)
    decreases |records|
  {
    if records == [] then []
    else
      var n := |records| - 1;
      MissingDetailIds(records[..n]) + (if DetailOf(records[n].body).None? then [records[n].messageId] else [])
  }

  /** With no SDK fault, exactly the records without a detail fail. */
  lemma {:induction false} StatusBatchNoFaults(t: Table, records: seq<SqsRecord>, now: int)
    ensures StatusBatch(t, records, now, []).0 == MissingDetailIds(records)
    decreases |records|
  {
    if records != [] {
      var n := |records| - 1;
      StatusBatchNoFaults(t, records[..n], now);
    }
  }

  /** The ids of the records that have no detail or whose query throws, with record `i` meeting `faults[i]`. */
  function ReadFailedIds(records: seq<SqsRecord>, faults: seq<Fault>): (ids: seq<string>)
    decreases |records|
  {
    if records == [] then []
    else
      var n := |records| - 1;
      ReadFailedIds(records[..n], faults)
        + (if DetailOf(records[n].body).None? || FaultAt(faults, n).queryFails then [records[n].messageId] else [])
  }

  /**
   * With queries that may throw but updates that do not, the failures are
   * exactly the records without a detail and those whose query throws, in
   * batch order; the rest of the batch goes on.
   */
  lemma {:induction false} StatusBatchReadFaults(t: Table, records: seq<SqsRecord>, now: int, faults: seq<Fault>)
    requires forall i :: 0 <= i < |faults| ==> !faults[i].writeFails
    ensures StatusBatch(t, records, now, faults).0 == ReadFailedIds(records, faults)
    decreases |records|
  {
    if records != [] {
      var n := |records| - 1;
      StatusBatchReadFaults(t, records[..n], now, faults);
      assert !FaultAt(faults, n).writeFails;
    }
  }

  /**
   * The table stays valid, completed records stay as they are, and no
   * record appears or disappears.
   */
  lemma {:induction false} StatusKeepsCompleted(t: Table, records: seq<SqsRecord>, now: int, faults: seq<Fault>)
    requires ValidTable(t)
    ensures
      var t' := StatusBatch(t, records, now, faults).1;
      && ValidTable(t') && t'.order == t.order && t'.items.Keys == t.items.Keys
      && forall id :: id in t.items && t.items[id].status == Completed ==> t'.items[id] == t.items[id]
    decreases |records|
  {
    if records != [] {
      var n := |records| - 1;
      StatusKeepsCompleted(t, records[..n], now, faults);
    }
  }

  /** The status example: a completed detail and a body without one; only the second fails. */
  lemma StatusExample(t: Table, now: int)
    ensures
      var m := ProcessedEventMessage("01234", 1, "PE");
      var records := [SqsRecord("m0", Some(EventEnvelope(m))), SqsRecord("m1", Some(JObject(map["noDetail" := JBool(true)])))];
      StatusBatch(t, records, now, []).0 == ["m1"]
  {
    var m := ProcessedEventMessage("01234", 1, "PE");
    var records := [SqsRecord("m0", Some(EventEnvelope(m))), SqsRecord("m1", Some(JObject(map["noDetail" := JBool(true)])))];
    StatusBatchNoFaults(t, records, now);
    DetailRoundTrip(m);
    NoDetailNoMessage(map["noDetail" := JBool(true)]);
    assert records[..1][..0] == [];
    assert MissingDetailIds(records[..1]) == [];
  }

  /** The body of `handleStatusSqs`'s loop: one record; `failed` when it is a batch failure. */
  method HandleStatusRecord(store: AppointmentRepository, record: SqsRecord, now: int, fault: Fault) returns (failed: bool)
    requires store.Valid()
    modifies store
    ensures store.Valid()
    ensures (failed, store.State()) == StatusStep(old(store.State()), record, now, fault)
  {
    var detail := DetailOf(record.body);
    if detail.None? {
      return true;
    }
    var d := detail.value;
    if d.scheduleId.None? || d.countryISO.None? {
      // The query runs; `find` then matches no record, since no stored scheduleId or countryISO equals it.
      var found := store.GetByInsuredId(d.insuredId, fault.queryFails);
      return found.Failure?;
    }
    var r := store.UpdateAppointmentToCompleted(d.insuredId, d.scheduleId.value, d.countryISO.value, now, fault.queryFails, fault.writeFails);
    failed := r.Failure?;
  }

  /** `handleStatusSqs`: each record is attempted in order, failures collected. */
  method HandleStatusSqs(store: AppointmentRepository, records: seq<SqsRecord>, now: int, faults: seq<Fault>)
    returns (failures: seq<string>)
    requires store.Valid()
    modifies store
    ensures store.Valid()
    ensures (failures, store.State()) == StatusBatch(old(store.State()), records, now, faults)
  {
    ghost var start := store.State();
    failures := [];
    var i := 0;
    while i < |records|
      invariant 0 <= i <= |records|
      invariant store.Valid()
      invariant (failures, store.State()) == StatusBatch(start, records[..i], now, faults)
    {
      BatchAppend(StatusStepAt(now), start, records[..i], records[i], faults);
      assert records[..i + 1] == records[..i] + [records[i]];
      var failed := HandleStatusRecord(store, records[i], now, FaultAt(faults, i));
      if failed {
        failures := failures + [records[i].messageId];
      }
      i := i + 1;
    }
    assert records[..|records|] == records;
  }

  // ------------------------------------------------------------ entry point

  /** What one invocation needs from outside: a fresh uuid, the clock and the SDK faults. */
  datatype Env = Env(freshId: string, now: int, fault: Fault, batchFaults: seq<Fault>)

  /** `handler`: the outcome and the new table and topic log. */
  function HandlerSpec(t: Table, log: seq<Notification>, e: Event, env: Env): (out: (Outcome, Table, seq<Notification>))
    requires ValidTable(t) && env.freshId !in t.items
    ensures ValidTable(out.1)
  {
    match RouteOf(e)
    case PostRoute => PostSpec(t, log, e.body, env.freshId, env.now, env.fault)
    case GetRoute => (GetSpec(t, e.insuredIdParam, env.fault), t, log)
    case NotFoundRoute => (Http(HttpResponse(404, Message(NotFoundMessage))), t, log)
    case StatusRoute =>
      if e.SqsEvent? then
        StatusKeepsCompleted(t, e.records, env.now, env.batchFaults);
        var (failures, t') := StatusBatch(t, e.records, env.now, env.batchFaults);
        (Batch(failures), t', log)
      else (Thrown(RecordsMissing), t, log)
  }

  /**
   * Only the intake publishes, and only the intake and the status consumer
   * write the table; an HTTP event never yields a batch response.
   */
  lemma HandlerRoutes(t: Table, log: seq<Notification>, e: Event, env: Env)
    requires ValidTable(t) && env.freshId !in t.items
    ensures
      var out := HandlerSpec(t, log, e, env);
      && (out.2 != log ==> RouteOf(e) == PostRoute)
      && (out.1 != t ==> RouteOf(e) == PostRoute || e.SqsEvent?)
      && (out.0.Batch? <==> e.SqsEvent?)
  {
  }

  /** `handler`. */
  method Handle(store: AppointmentRepository, topic: NotificationTopic, e: Event, env: Env) returns (o: Outcome)
    requires store.Valid() && env.freshId !in store.items
    modifies store, topic
    ensures store.Valid()
    ensures (o, store.State(), topic.published) == HandlerSpec(old(store.State()), old(topic.published), e, env)
  {
    match RouteOf(e)
    case PostRoute =>
      o := HandlePost(store, topic, e.body, env.freshId, env.now, env.fault);
    case GetRoute =>
      o := HandleGet(store, e.insuredIdParam, env.fault);
    case NotFoundRoute =>
      o := Http(HttpResponse(404, Message(NotFoundMessage)));
    case StatusRoute =>
      if e.SqsEvent? {
        var failures := HandleStatusSqs(store, e.records, env.now, env.batchFaults);
        o := Batch(failures);
      } else {
        o := Thrown(RecordsMissing);
      }
  }
}
