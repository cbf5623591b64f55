/**
 * Parsed message bodies and the checks the handlers apply to them: the
 * request schema shared by the intake handler and the country handlers
 * (insuredId a string of length 5, scheduleId a number, countryISO a string
 * of length 2, no other keys) and the `detail` envelope of processed events.
 * JSON text itself is not modelled: a body is the value `JSON.parse` would
 * produce, or None where it would throw.
 */
module Messages {
  import opened Wrappers
  import opened Types
  import opened Text

  /** A parsed JSON value; numbers are integers. */
  datatype Json =
    | JNull
    | JBool(b: bool)
    | JNumber(n: int)
    | JString(s: string)
    | JArray(elems: seq<Json>)
    | JObject(fields: map<string, Json>)

  /** Number.MAX_SAFE_INTEGER: the schema rejects numbers beyond it by default. */
  const MaxSafeInteger: int := 9007199254740991

  const RequestKeys: set<string> := {"insuredId", "scheduleId", "countryISO"}

  /** A string whose JavaScript `length` (UTF-16 code units) is `n`. */
  predicate IsStringOfLength(v: Json, n: nat) {
    v.JString? && Utf16Length(v.s) == n
  }

  predicate IsSafeNumber(v: Json) {
    v.JNumber? && -MaxSafeInteger <= v.n <= MaxSafeInteger
  }

  /** The request schema: three required keys of the right kinds, and no other key. */
  predicate SatisfiesSchema(j: Json) {
    && j.JObject?
    && j.fields.Keys <= RequestKeys
    && "insuredId" in j.fields && IsStringOfLength(j.fields["insuredId"], 5)
    && "scheduleId" in j.fields && IsSafeNumber(j.fields["scheduleId"])
    && "countryISO" in j.fields && IsStringOfLength(j.fields["countryISO"], 2)
  }

  /** What a request that passed the schema looks like. */
  predicate WellFormed(r: AppointmentRequest) {
    Utf16Length(r.insuredId) == 5 && -MaxSafeInteger <= r.scheduleId <= MaxSafeInteger && Utf16Length(r.countryISO) == 2
  }

  /** The JSON object of a request (JSON.stringify of the triple). */
  function RequestJson(r: AppointmentRequest): Json {
    JObject(map["insuredId" := JString(r.insuredId), "scheduleId" := JNumber(r.scheduleId), "countryISO" := JString(r.countryISO)])
  }

  /**
   * `schema.validate(body)`: the validated request, or None for a validation
   * error. The validated value is the input object itself.
   */
  function ValidateRequest(j: Json): (r: Option<AppointmentRequest>)
    ensures r.Some? <==> SatisfiesSchema(j)
    ensures r.Some? ==> WellFormed(r.value) && RequestJson(r.value) == j
  {
    if SatisfiesSchema(j) then
      var r := AppointmentRequest(j.fields["insuredId"].s, j.fields["scheduleId"].n, j.fields["countryISO"].s);
      assert RequestJson(r).fields.Keys == j.fields.Keys;
      Some(r)
    else None
  }

  /** Validation of a body that may not have parsed. */
  function ValidateBody(body: Option<Json>): Option<AppointmentRequest> {
    if body.Some? then ValidateRequest(body.value) else None
  }

  /** Every well-formed request survives serialisation and validation unchanged. */
  lemma {:induction false} ValidateRoundTrip(r: AppointmentRequest)
    requires WellFormed(r)
    ensures ValidateRequest(RequestJson(r)) == Some(r)
  {
    var j := RequestJson(r);
    assert j.fields.Keys == RequestKeys;
    assert SatisfiesSchema(j);
  }

  /** The schema checks the length of countryISO only: a code that is no country passes. */
  lemma CountryMembershipNotChecked()
    ensures ValidateRequest(RequestJson(AppointmentRequest("01234", 1, "XX"))) == Some(AppointmentRequest("01234", 1, "XX"))
    ensures ParseCountry("XX") == None
  {
    ValidateRoundTrip(AppointmentRequest("01234", 1, "XX"));
  }

  /** Lengths are counted in UTF-16 units: two characters beyond U+FFFF and a digit make an insuredId of five. */
  lemma AstralCharactersCountTwice()
    ensures ValidateRequest(RequestJson(AppointmentRequest("\U{1F600}\U{1F600}1", 1, "PE"))).Some?
    ensures ValidateRequest(RequestJson(AppointmentRequest("01234", 1, "\U{1F600}"))).Some?
  {
    ValidateRoundTrip(AppointmentRequest("\U{1F600}\U{1F600}1", 1, "PE"));
    ValidateRoundTrip(AppointmentRequest("01234", 1, "\U{1F600}"));
  }

  /** An unknown key makes an otherwise valid object fail. */
  lemma {:induction false} UnknownKeyRejected(r: AppointmentRequest, key: string, v: Json)
    requires key !in RequestKeys
    ensures ValidateRequest(JObject(RequestJson(r).fields[key := v])) == None
  {
    var f := RequestJson(r).fields[key := v];
    assert key in f.Keys;
  }

  /** The JSON object of a processed-event message. */
  function EventJson(m: ProcessedEventMessage): Json {
    JObject(map["insuredId" := JString(m.insuredId), "scheduleId" := JNumber(m.scheduleId), "countryISO" := JString(m.countryISO)])
  }

  /** The envelope in which a processed event reaches the status queue: `{detail: {...}}`. */
  function EventEnvelope(m: ProcessedEventMessage): Json {
    JObject(map["detail" := EventJson(m)])
  }

  /**
   * What the status consumer reads from `body.detail`: the insuredId it
   * queries with, and the scheduleId and countryISO it compares with
   * `===`. A field that is missing or of another kind is None: it equals no
   * stored value.
   */
  datatype StatusDetail = StatusDetail(insuredId: string, scheduleId: Option<int>, countryISO: Option<string>)

  /** The value of a number field, when the key holds a number. */
  function NumberField(fields: map<string, Json>, key: string): (v: Option<int>)
    ensures v.Some? <==> key in fields && fields[key].JNumber?
    ensures v.Some? ==> v.value == fields[key].n
  {
    if key in fields && fields[key].JNumber? then Some(fields[key].n) else None
  }

  /** The value of a string field, when the key holds a string. */
  function StringField(fields: map<string, Json>, key: string): (v: Option<string>)
    ensures v.Some? <==> key in fields && fields[key].JString?
    ensures v.Some? ==> v.value == fields[key].s
  {
    if key in fields && fields[key].JString? then Some(fields[key].s) else None
  }

  /**
   * `body.detail` as the status consumer reads it: None when the body did
   * not parse, is not an object, or has no `detail` object carrying a string
   * insuredId; such a record throws, on the missing detail or on the query
   * with a key that is no string.
   */
  function DetailOf(body: Option<Json>): (d: Option<StatusDetail>)
    ensures d.Some? <==>
      && body.Some? && body.value.JObject? && "detail" in body.value.fields
      && body.value.fields["detail"].JObject? && StringField(body.value.fields["detail"].fields, "insuredId").Some?
    ensures d.Some? ==>
      var fields := body.value.fields["detail"].fields;
      d.value == StatusDetail(fields["insuredId"].s, NumberField(fields, "scheduleId"), StringField(fields, "countryISO"))
  {
    if body.Some? && body.value.JObject? && "detail" in body.value.fields then
      var detail := body.value.fields["detail"];
      if detail.JObject? && StringField(detail.fields, "insuredId").Some? then
        Some(StatusDetail(detail.fields["insuredId"].s, NumberField(detail.fields, "scheduleId"), StringField(detail.fields, "countryISO")))
      else None
    else None
  }

  /** The detail a processed-event message is read back as. */
  function DetailOfMessage(m: ProcessedEventMessage): StatusDetail {
    StatusDetail(m.insuredId, Some(m.scheduleId), Some(m.countryISO))
  }

  /** Every processed event, sent in its envelope, is read back with all three of its fields. */
  lemma DetailRoundTrip(m: ProcessedEventMessage)
    ensures DetailOf(Some(EventEnvelope(m))) == Some(DetailOfMessage(m))
  {
  }

  /** A body without `detail` has no detail. */
  lemma {:induction false} NoDetailNoMessage(fields: map<string, Json>)
    requires "detail" !in fields
    ensures DetailOf(Some(JObject(fields))) == None
  {
  }

  /** A detail whose scheduleId is a string is still read, with no scheduleId to match. */
  lemma StringScheduleIdRead(insuredId: string, scheduleId: string, countryISO: string)
    ensures
      var detail := JObject(map["insuredId" := JString(insuredId), "scheduleId" := JString(scheduleId), "countryISO" := JString(countryISO)]);
      DetailOf(Some(JObject(map["detail" := detail]))) == Some(StatusDetail(insuredId, None, Some(countryISO)))
  {
  }

  /** One message of a queue batch: its id and its parsed body. */
  datatype SqsRecord = SqsRecord(messageId: string, body: Option<Json>)

  function MessageIds(records: seq<SqsRecord>): (ids: seq<string>)
    ensures |ids| == |records| && forall i :: 0 <= i < |records| ==> ids[i] == records[i].messageId
  {
    seq(|records|, i requires 0 <= i < |records| => records[i].messageId)
  }

  /** `xs` can be obtained from `ys` by deleting elements (matched from the end). */
  predicate Subsequence<T(==)>(xs: seq<T>, ys: seq<T>)
    decreases |ys|
  {
    if xs == [] then true
    else if ys == [] then false
    else if xs[|xs| - 1] == ys[|ys| - 1] then Subsequence(xs[..|xs| - 1], ys[..|ys| - 1])
    else Subsequence(xs, ys[..|ys| - 1])
  }

  lemma {:induction false} SubsequenceDropLast<T>(xs: seq<T>, ys: seq<T>)
    requires xs != [] && Subsequence(xs, ys)
    ensures Subsequence(xs[..|xs| - 1], ys)
    decreases |ys|, 0
  {
    var xs' := xs[..|xs| - 1];
    if xs' != [] {
      if xs[|xs| - 1] == ys[|ys| - 1] {
        SubsequenceExtend(xs', ys[..|ys| - 1], ys[|ys| - 1]);
        assert ys[..|ys| - 1] + [ys[|ys| - 1]] == ys;
      } else {
        SubsequenceDropLast(xs, ys[..|ys| - 1]);
        SubsequenceExtend(xs', ys[..|ys| - 1], ys[|ys| - 1]);
        assert ys[..|ys| - 1] + [ys[|ys| - 1]] == ys;
      }
    }
  }

  /** A subsequence stays one when the longer sequence grows. */
  lemma {:induction false} SubsequenceExtend<T>(xs: seq<T>, ys: seq<T>, y: T)
    requires Subsequence(xs, ys)
    ensures Subsequence(xs, ys + [y])
    decreases |ys|, 1
  {
    var ys' := ys + [y];
    assert ys'[..|ys'| - 1] == ys;
    if xs != [] && xs[|xs| - 1] == y {
      SubsequenceDropLast(xs, ys);
    }
  }

  /** Appending to both sides keeps a subsequence. */
  lemma SubsequenceAppendBoth<T>(xs: seq<T>, ys: seq<T>, y: T)
    requires Subsequence(xs, ys)
    ensures Subsequence(xs + [y], ys + [y])
  {
    assert (xs + [y])[..|xs|] == xs;
    assert (ys + [y])[..|ys|] == ys;
  }

  lemma AppendAssociates<T>(x: seq<T>, y: seq<T>, z: seq<T>)
    ensures (x + y) + z == x + (y + z)
  {
  }

  /** One more element on the longer side, kept or dropped on the shorter side, keeps a subsequence. */
  lemma SubsequenceStep<T>(prev: seq<T>, cur: seq<T>, ys: seq<T>, y: T)
    requires Subsequence(prev, ys)
    requires cur == prev || cur == prev + [y]
    ensures Subsequence(cur, ys + [y])
  {
    if cur == prev {
      SubsequenceExtend(prev, ys, y);
    } else {
      SubsequenceAppendBoth(prev, ys, y);
    }
  }
}
