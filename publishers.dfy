/**
 * The two publishers, as append-only logs of what was handed to the
 * transport. A publish either succeeds and is logged, or fails (the SDK call
 * throws) and logs nothing; whether it fails is an input.
 */
module Publishers {
  import opened Types

  /** An SNS publish: the request as message, and its countryISO as routing attribute. */
  datatype Notification = Notification(message: AppointmentRequest, countryAttribute: string)

  /** The SNS topic that fans accepted requests out to the country queues. */
  class NotificationTopic {
    var published: seq<Notification>

    constructor ()
      ensures published == []
    {
      published := [];
    }

    method PublishAppointment(request: AppointmentRequest, fails: bool) returns (ok: bool)
      modifies this
      ensures ok == !fails
      ensures published == if ok then old(published) + [Notification(request, request.countryISO)] else old(published)
    {
      ok := !fails;
      if ok {
        published := published + [Notification(request, request.countryISO)];
      }
    }
  }

  const EventSource: string := "appointment"
  const ProcessedDetailType: string := "AppointmentProcessed"

  /** An EventBridge entry. */
  datatype BusEntry = BusEntry(source: string, detailType: string, detail: ProcessedEventMessage)

  /** The entry `emitProcessed` puts for a message. */
  function ProcessedEntry(m: ProcessedEventMessage): (e: BusEntry)
    ensures e.detail == m && e.source == "appointment" && e.detailType == "AppointmentProcessed"
  {
    BusEntry(EventSource, ProcessedDetailType, m)
  }

  /**
   * How a PutEvents call ends: the entry is put; the call throws; or the call
   * returns with the entry in its failed entries, which `emitProcessed`
   * does not look at.
   */
  datatype EmitResult = Put | Throws | EntryDropped

  /** The EventBridge bus that carries "appointment processed" events. */
  class EventBus {
    var entries: seq<BusEntry>

    constructor ()
      ensures entries == []
    {
      entries := [];
    }

    /** `emitProcessed`: `ok` when it returns normally, which it also does when the entry was dropped. */
    method EmitProcessed(message: ProcessedEventMessage, result: EmitResult) returns (ok: bool)
      modifies this
      ensures ok <==> result != Throws
      ensures entries == if result == Put then old(entries) + [ProcessedEntry(message)] else old(entries)
    {
      ok := result != Throws;
      if result == Put {
        entries := entries + [ProcessedEntry(message)];
      }
    }
  }
}
