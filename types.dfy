/** The shared type declarations of the system (src/index.d.ts). */
module Types {
  import opened Wrappers

  /** The two countries the system serves. */
  datatype CountryISO = PE | CL {
    function Code(): (s: string)
      ensures |s| == 2
    {
      match this
      case PE => "PE"
      case CL => "CL"
    }
  }

  /** Reads a country code; only "PE" and "CL" are countries. */
  function ParseCountry(s: string): (c: Option<CountryISO>)
    ensures c.Some? ==> c.value.Code() == s
    ensures c.None? <==> forall k: CountryISO :: k.Code() != s
  {
    if s == "PE" then Some(PE) else if s == "CL" then Some(CL) else None
  }

  lemma {:induction false} CountryCodeRoundTrip(c: CountryISO)
    ensures ParseCountry(c.Code()) == Some(c)
  {
    match c
    case PE =>
    case CL =>
  }

  /** The status of an appointment record. */
  datatype AppointmentStatus = Pending | Completed {
    function Name(): string {
      match this
      case Pending => "pending"
      case Completed => "completed"
    }
  }

  function ParseStatus(s: string): (st: Option<AppointmentStatus>)
    ensures st.Some? ==> st.value.Name() == s
    ensures st.None? <==> forall k: AppointmentStatus :: k.Name() != s
  {
    if s == "pending" then Some(Pending) else if s == "completed" then Some(Completed) else None
  }

  /**
   * The request triple that flows through every stage. `countryISO` is kept
   * as text: the schemas that admit requests check only its length.
   */
  datatype AppointmentRequest = AppointmentRequest(insuredId: string, scheduleId: int, countryISO: string)

  /** A stored appointment: the request fields plus id, status and the two timestamps (epoch millis). */
  datatype AppointmentRecord = AppointmentRecord(
    id: string,
    insuredId: string,
    scheduleId: int,
    countryISO: string,
    status: AppointmentStatus,
    createdAt: int,
    updatedAt: int)
  {
    /** The request part of the record. */
    function Request(): AppointmentRequest {
      AppointmentRequest(insuredId, scheduleId, countryISO)
    }
  }

  /** Builds a record from a request and the record's own attributes. */
  function RecordOf(request: AppointmentRequest, id: string, status: AppointmentStatus, createdAt: int, updatedAt: int): (r: AppointmentRecord)
    ensures r.Request() == request
    ensures r.id == id && r.status == status && r.createdAt == createdAt && r.updatedAt == updatedAt
  {
    AppointmentRecord(id, request.insuredId, request.scheduleId, request.countryISO, status, createdAt, updatedAt)
  }

  /** A record is determined by its request part and its own four attributes. */
  lemma RecordDecomposes(r: AppointmentRecord)
    ensures RecordOf(r.Request(), r.id, r.status, r.createdAt, r.updatedAt) == r
  {
  }

  /** The wire payload of an "appointment processed" event. */
  datatype ProcessedEventMessage = ProcessedEventMessage(insuredId: string, scheduleId: int, countryISO: string)

  function ToProcessedEvent(r: AppointmentRequest): (m: ProcessedEventMessage)
    ensures m.insuredId == r.insuredId && m.scheduleId == r.scheduleId && m.countryISO == r.countryISO
  {
    ProcessedEventMessage(r.insuredId, r.scheduleId, r.countryISO)
  }

  function FromProcessedEvent(m: ProcessedEventMessage): (r: AppointmentRequest)
    ensures ToProcessedEvent(r) == m
  {
    AppointmentRequest(m.insuredId, m.scheduleId, m.countryISO)
  }

  /** Converting a request to an event message and back loses nothing. */
  lemma ProcessedEventRoundTrip(r: AppointmentRequest)
    ensures FromProcessedEvent(ToProcessedEvent(r)) == r
  {
  }
}
