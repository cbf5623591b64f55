/**
 * The per-country consumer built by `buildCountryAppointmentHandler`: for
 * every record of a country queue batch, validate the payload, store it in
 * the country's database, then emit an "appointment processed" event; a
 * record that throws at any point is reported as a batch item failure and
 * the batch goes on.
 *
 * The batch is specified by the pure fold `CountryBatch` over the rows of
 * the handler's own partition of the shared database (no other partition
 * changes); whether each emit fails is an input, and the clock is read once
 * per batch.
 */
module CountryHandler {
  import opened Wrappers
  import opened Types
  import opened Text
  import opened Messages
  import opened Publishers
  import opened CountryRows
  import opened CountryStore

  /** How the emit of record `i` ends; records past the end of `emits` are put. */
  function EmitAt(emits: seq<EmitResult>, i: int): EmitResult {
    if 0 <= i < |emits| then emits[i] else Put
  }

  /** A record after `JSON.parse` and the schema: its id and the validated request, if any. */
  datatype Item = Item(messageId: string, payload: Option<AppointmentRequest>)

  /** Parsing and validating every record of a batch; validation depends on nothing else. */
  function Parse(records: seq<SqsRecord>): (items: seq<Item>)
    ensures |items| == |records|
    decreases |records|
  {
    if records == [] then []
    else
      var n := |records| - 1;
      Parse(records[..n]) + [Item(records[n].messageId, ValidateBody(records[n].body))]
  }

  /** Each item carries its record's id and the outcome of validating that record's body. */
  lemma {:induction false} ParseReadsEachRecord(records: seq<SqsRecord>)
    ensures forall i :: 0 <= i < |records| ==> Parse(records)[i] == Item(records[i].messageId, ValidateBody(records[i].body))
    decreases |records|
  {
    if records != [] {
      var n := |records| - 1;
      ParseReadsEachRecord(records[..n]);
      assert forall i :: 0 <= i < n ==> records[..n][i] == records[i];
    }
  }

  /**
   * One record against the rows of the handler's partition: whether it
   * fails, the new rows, and the entries it emits. An invalid payload stores
   * nothing; a valid one is stored before the emit, so a failed emit leaves
   * the row stored. An emit whose entry is dropped returns normally: the
   * record is acknowledged though nothing was emitted.
   */
  function CountryStep(rows: seq<MockRow>, item: Item, now: int, emit: EmitResult)
    : (out: (bool, seq<MockRow>, seq<BusEntry>))
    ensures out.0 ==> out.2 == []
    ensures emit != EntryDropped ==> (out.0 <==> out.2 == [])
    ensures out.0 <==> item.payload.None? || emit == Throws
    ensures out.1 == rows || (item.payload.Some? && out.1 == rows + [RowOfRequest(item.payload.value, now)])
    ensures item.payload.Some? ==> out.1 == rows + [RowOfRequest(item.payload.value, now)]
    ensures item.payload.None? ==> out.1 == rows
  {
    match item.payload
    case None => (true, rows, [])
    case Some(request) =>
      var rows' := rows + [RowOfRequest(request, now)];
      match emit
      case Throws => (true, rows', [])
      case EntryDropped => (false, rows', [])
      case Put => (false, rows', [ProcessedEntry(ToProcessedEvent(request))])
  }

  /** A batch: the failed record ids in order, the final rows and the emitted entries in order. */
  function CountryBatch(rows: seq<MockRow>, items: seq<Item>, now: int, emits: seq<EmitResult>)
    : (out: (seq<string>, seq<MockRow>, seq<BusEntry>))
    decreases |items|
  {
    if items == [] then ([], rows, [])
    else
      var n := |items| - 1;
      var prev := CountryBatch(rows, items[..n], now, emits);
      var step := CountryStep(prev.1, items[n], now, EmitAt(emits, n));
      (if step.0 then prev.0 + [items[n].messageId] else prev.0, step.1, prev.2 + step.2)
  }

  /** One more record of the batch is one more step. */
  lemma CountryBatchAppend(rows: seq<MockRow>, items: seq<Item>, r: Item, now: int, emits: seq<EmitResult>)
    ensures
      var prev := CountryBatch(rows, items, now, emits);
      var step := CountryStep(prev.1, r, now, EmitAt(emits, |items|));
      CountryBatch(rows, items + [r], now, emits)
        == (if step.0 then prev.0 + [r.messageId] else prev.0, step.1, prev.2 + step.2)
  {
    assert (items + [r])[..|items|] == items;
  }

  /** Handling the records up to `i` and then record `i` is handling the records up to `i + 1`. */
  lemma CountryBatchNextRecord(rows: seq<MockRow>, records: seq<SqsRecord>, i: nat, now: int, emits: seq<EmitResult>)
    requires i < |records|
    ensures
      var prev := CountryBatch(rows, Parse(records[..i]), now, emits);
      var step := CountryStep(prev.1, Item(records[i].messageId, ValidateBody(records[i].body)), now, EmitAt(emits, i));
      CountryBatch(rows, Parse(records[..i + 1]), now, emits)
        == (if step.0 then prev.0 + [records[i].messageId] else prev.0, step.1, prev.2 + step.2)
  {
    assert records[..i + 1][..i] == records[..i];
    var item := Item(records[i].messageId, ValidateBody(records[i].body));
    assert Parse(records[..i + 1]) == Parse(records[..i]) + [item];
    CountryBatchAppend(rows, Parse(records[..i]), item, now, emits);
  }

  /**
   * After the first `i` records, the collected failures, the partition and the
   * bus are those of the batch over those records, started from `rows` and `log`.
   */
  predicate HandledPrefix(rows: seq<MockRow>, records: seq<SqsRecord>, i: nat, now: int, emits: seq<EmitResult>,
                          log: seq<BusEntry>, failures: seq<string>, part: seq<MockRow>, entries: seq<BusEntry>)
    requires i <= |records|
  {
    var out := CountryBatch(rows, Parse(records[..i]), now, emits);
    failures == out.0 && part == out.1 && entries == log + out.2
  }

  /** One more record handled: the handler's state after it is the batch over one more record. */
  lemma CountryBatchAdvance(rows: seq<MockRow>, records: seq<SqsRecord>, i: nat, now: int, emits: seq<EmitResult>,
                            log: seq<BusEntry>, failures: seq<string>, part: seq<MockRow>, entries: seq<BusEntry>,
                            failed: bool, part': seq<MockRow>, entries': seq<BusEntry>)
    requires i < |records|
    requires HandledPrefix(rows, records, i, now, emits, log, failures, part, entries)
    requires
      var step := CountryStep(part, Item(records[i].messageId, ValidateBody(records[i].body)), now, EmitAt(emits, i));
      failed == step.0 && part' == step.1 && entries' == entries + step.2
    ensures HandledPrefix(rows, records, i + 1, now, emits, log, if failed then failures + [records[i].messageId] else failures, part', entries')
  {
    CountryBatchNextRecord(rows, records, i, now, emits);
    var prev := CountryBatch(rows, Parse(records[..i]), now, emits);
    var step := CountryStep(part, Item(records[i].messageId, ValidateBody(records[i].body)), now, EmitAt(emits, i));
    AppendAssociates(log, prev.2, step.2);
  }

  /** Before any record, nothing is handled. */
  lemma HandledNone(rows: seq<MockRow>, records: seq<SqsRecord>, now: int, emits: seq<EmitResult>, log: seq<BusEntry>)
    ensures HandledPrefix(rows, records, 0, now, emits, log, [], rows, log)
  {
    assert records[..0] == [];
    assert log + [] == log;
  }

  /** After every record, the handled state is the whole batch. */
  lemma HandledAll(rows: seq<MockRow>, records: seq<SqsRecord>, now: int, emits: seq<EmitResult>,
                   log: seq<BusEntry>, failures: seq<string>, part: seq<MockRow>, entries: seq<BusEntry>)
    requires HandledPrefix(rows, records, |records|, now, emits, log, failures, part, entries)
    ensures
      var out := CountryBatch(rows, Parse(records), now, emits);
      failures == out.0 && part == out.1 && entries == log + out.2
  {
    assert records[..|records|] == records;
  }

  /** The requests of the records whose payload passes the schema, in batch order. */
  function ValidRequests(items: seq<Item>): (rs: seq<AppointmentRequest>)
    ensures |rs| <= |items|
    decreases |items|
  {
    if items == [] then []
    else
      var n := |items| - 1;
      var v := items[n].payload;
      ValidRequests(items[..n]) + (if v.Some? then [v.value] else [])
  }

  /** The ids of the records whose payload fails the schema, in batch order. */
  function InvalidIds(items: seq<Item>): seq<string>
    decreases |items|
  {
    if items == [] then []
    else
      var n := |items| - 1;
      InvalidIds(items[..n]) + (if items[n].payload.None? then [items[n].messageId] else [])
  }

  /** Item `i` carries the valid request `r`. */
  predicate CarriesAt(items: seq<Item>, r: AppointmentRequest, i: int)
  {
    0 <= i < |items| && items[i].payload == Some(r)
  }

  function Payloads(items: seq<Item>): (ps: seq<Option<AppointmentRequest>>)
    ensures |ps| == |items| && forall i :: 0 <= i < |items| ==> ps[i] == items[i].payload
  {
    seq(|items|, i requires 0 <= i < |items| => items[i].payload)
  }

  function Present(rs: seq<AppointmentRequest>): (ps: seq<Option<AppointmentRequest>>)
    ensures |ps| == |rs| && forall i :: 0 <= i < |rs| ==> ps[i] == Some(rs[i])
  {
    seq(|rs|, i requires 0 <= i < |rs| => Some(rs[i]))
  }

  /** The valid requests are the present payloads, in batch order. */
  lemma {:induction false} ValidRequestsInOrder(items: seq<Item>)
    ensures Subsequence(Present(ValidRequests(items)), Payloads(items))
    decreases |items|
  {
    if items != [] {
      var n := |items| - 1;
      ValidRequestsInOrder(items[..n]);
      var before := ValidRequests(items[..n]);
      var v := items[n].payload;
      assert Payloads(items) == Payloads(items[..n]) + [v];
      if v.Some? {
        assert Present(ValidRequests(items)) == Present(before) + [v];
        SubsequenceAppendBoth(Present(before), Payloads(items[..n]), v);
      } else {
        assert ValidRequests(items) == before;
        SubsequenceExtend(Present(before), Payloads(items[..n]), v);
      }
    }
  }

  /**
   * The valid requests and the invalid ids split the batch between them, and a
   * request is among the valid ones exactly when some item carries it.
   */
  lemma {:induction false} ValidRequestsSplit(items: seq<Item>)
    ensures |ValidRequests(items)| + |InvalidIds(items)| == |items|
    ensures forall r :: r in ValidRequests(items) <==> exists i :: CarriesAt(items, r, i)
    decreases |items|
  {
    if items != [] {
      var n := |items| - 1;
      ValidRequestsSplit(items[..n]);
      forall r
        ensures r in ValidRequests(items) <==> exists i :: CarriesAt(items, r, i)
      {
        if r in ValidRequests(items) {
          if r in ValidRequests(items[..n]) {
            var i :| CarriesAt(items[..n], r, i);
            assert CarriesAt(items, r, i);
          } else {
            assert CarriesAt(items, r, n);
          }
        }
        if exists i :: CarriesAt(items, r, i) {
          var i :| CarriesAt(items, r, i);
          if i < n {
            assert CarriesAt(items[..n], r, i);
          }
        }
      }
    }
  }

  function RowsOf(requests: seq<AppointmentRequest>, now: int): (rows: seq<MockRow>)
    ensures |rows| == |requests| && forall i :: 0 <= i < |requests| ==> rows[i] == RowOfRequest(requests[i], now)
  {
    seq(|requests|, i requires 0 <= i < |requests| => RowOfRequest(requests[i], now))
  }

  function EntriesOf(requests: seq<AppointmentRequest>): (entries: seq<BusEntry>)
    ensures |entries| == |requests| && forall i :: 0 <= i < |requests| ==> entries[i] == ProcessedEntry(ToProcessedEvent(requests[i]))
  {
    seq(|requests|, i requires 0 <= i < |requests| => ProcessedEntry(ToProcessedEvent(requests[i])))
  }

  lemma RowsOfAppend(requests: seq<AppointmentRequest>, r: AppointmentRequest, now: int)
    ensures RowsOf(requests + [r], now) == RowsOf(requests, now) + [RowOfRequest(r, now)]
  {
    assert RowsOf(requests + [r], now) == RowsOf(requests, now) + [RowOfRequest(r, now)];
  }

  /** Whatever the emits do, the partition gains exactly the rows of the valid requests, in batch order. */
  lemma {:induction false} CountryBatchStores(rows: seq<MockRow>, items: seq<Item>, now: int, emits: seq<EmitResult>)
    ensures CountryBatch(rows, items, now, emits).1 == rows + RowsOf(ValidRequests(items), now)
    decreases |items|
  {
    if items == [] {
      assert rows + [] == rows;
    } else {
      var n := |items| - 1;
      CountryBatchStores(rows, items[..n], now, emits);
      CountryBatchAppend(rows, items[..n], items[n], now, emits);
      assert items[..n] + [items[n]] == items;
      var prev := CountryBatch(rows, items[..n], now, emits).1;
      var stored := CountryBatch(rows, items, now, emits).1;
      var before := ValidRequests(items[..n]);
      var v := items[n].payload;
      if v.None? {
        assert stored == prev;
        assert ValidRequests(items) == before;
      } else {
        var row := RowOfRequest(v.value, now);
        assert stored == prev + [row];
        assert ValidRequests(items) == before + [v.value];
        RowsOfAppend(before, v.value, now);
        AppendAssociates(rows, RowsOf(before, now), [row]);
      }
    }
  }

  /**
   * With no failing emit, exactly the records with an invalid payload fail,
   * and every valid request is emitted once, in batch order.
   */
  lemma {:induction false} CountryBatchNoFaults(rows: seq<MockRow>, items: seq<Item>, now: int)
    ensures
      var out := CountryBatch(rows, items, now, []);
      out.0 == InvalidIds(items) && out.2 == EntriesOf(ValidRequests(items))
    decreases |items|
  {
    if items != [] {
      var n := |items| - 1;
      CountryBatchNoFaults(rows, items[..n], now);
      CountryBatchAppend(rows, items[..n], items[n], now, []);
      assert items[..n] + [items[n]] == items;
      var before := ValidRequests(items[..n]);
      var v := items[n].payload;
      if v.Some? {
        assert ValidRequests(items) == before + [v.value];
        assert EntriesOf(before + [v.value]) == EntriesOf(before) + [ProcessedEntry(ToProcessedEvent(v.value))];
      } else {
        assert ValidRequests(items) == before;
      }
    }
  }

  /** Record `i` is reported: its payload is invalid or its emit throws. */
  predicate Reported(items: seq<Item>, emits: seq<EmitResult>, i: int)
    requires 0 <= i < |items|
  {
    items[i].payload.None? || EmitAt(emits, i) == Throws
  }

  /** Record `i` is emitted: its payload is valid and its entry is put. */
  predicate Emitted(items: seq<Item>, emits: seq<EmitResult>, i: int)
    requires 0 <= i < |items|
  {
    items[i].payload.Some? && EmitAt(emits, i) == Put
  }

  /** No record is both reported and emitted; unless its entry is dropped, each record is one of the two. */
  lemma ReportedOrEmitted(items: seq<Item>, emits: seq<EmitResult>, i: int)
    requires 0 <= i < |items|
    ensures !(Reported(items, emits, i) && Emitted(items, emits, i))
    ensures EmitAt(emits, i) != EntryDropped ==> Reported(items, emits, i) || Emitted(items, emits, i)
  {
  }

  /** The ids of the reported records, in batch order. */
  function ReportedIds(items: seq<Item>, emits: seq<EmitResult>): seq<string>
    decreases |items|
  {
    if items == [] then []
    else
      var n := |items| - 1;
      ReportedIds(items[..n], emits) + (if Reported(items, emits, n) then [items[n].messageId] else [])
  }

  /** The entries of the emitted records, in batch order. */
  function EmittedEntries(items: seq<Item>, emits: seq<EmitResult>): seq<BusEntry>
    decreases |items|
  {
    if items == [] then []
    else
      var n := |items| - 1;
      EmittedEntries(items[..n], emits) + (if Emitted(items, emits, n) then [ProcessedEntry(ToProcessedEvent(items[n].payload.value))] else [])
  }

  /** Whether record `i` is reported or emitted depends on that record and its emit only. */
  lemma PrefixKeepsOutcome(items: seq<Item>, emits: seq<EmitResult>, n: nat, i: nat)
    requires i < n <= |items|
    ensures Reported(items[..n], emits, i) == Reported(items, emits, i)
    ensures Emitted(items[..n], emits, i) == Emitted(items, emits, i)
  {
  }

  /**
   * For any emit outcomes, the failures are exactly the ids of the reported
   * records and the emitted entries exactly those of the emitted records,
   * both in batch order.
   */
  lemma {:induction false} CountryBatchOutcome(rows: seq<MockRow>, items: seq<Item>, now: int, emits: seq<EmitResult>)
    ensures
      var out := CountryBatch(rows, items, now, emits);
      out.0 == ReportedIds(items, emits) && out.2 == EmittedEntries(items, emits)
    decreases |items|
  {
    if items != [] {
      var n := |items| - 1;
      CountryBatchOutcome(rows, items[..n], now, emits);
      var prev := CountryBatch(rows, items[..n], now, emits);
      var step := CountryStep(prev.1, items[n], now, EmitAt(emits, n));
      assert CountryBatch(rows, items, now, emits) == (if step.0 then prev.0 + [items[n].messageId] else prev.0, step.1, prev.2 + step.2);
      assert step.0 == Reported(items, emits, n);
      assert step.2 == if Emitted(items, emits, n) then [ProcessedEntry(ToProcessedEvent(items[n].payload.value))] else [];
    }
  }

  /** Each record adds at most one failure or one entry; when no entry is dropped, exactly one. */
  lemma {:induction false} OutcomeCounts(items: seq<Item>, emits: seq<EmitResult>)
    ensures |ReportedIds(items, emits)| + |EmittedEntries(items, emits)| <= |items|
    ensures (forall i :: 0 <= i < |items| ==> EmitAt(emits, i) != EntryDropped) ==>
      |ReportedIds(items, emits)| + |EmittedEntries(items, emits)| == |items|
    decreases |items|
  {
    if items != [] {
      var n := |items| - 1;
      OutcomeCounts(items[..n], emits);
      ReportedOrEmitted(items, emits, n);
    }
  }

  /** Every record is reported, emitted, or acknowledged with its entry dropped; never reported and emitted. */
  lemma CountryBatchAccounts(rows: seq<MockRow>, items: seq<Item>, now: int, emits: seq<EmitResult>)
    ensures
      var out := CountryBatch(rows, items, now, emits);
      && |out.0| + |out.2| <= |items|
      && ((forall i :: 0 <= i < |items| ==> EmitAt(emits, i) != EntryDropped) ==> |out.0| + |out.2| == |items|)
  {
    CountryBatchOutcome(rows, items, now, emits);
    OutcomeCounts(items, emits);
  }

  /** The failures are the message ids of the batch, in batch order, each record at most once. */
  lemma {:induction false} CountryFailuresAreRecords(rows: seq<MockRow>, records: seq<SqsRecord>, now: int, emits: seq<EmitResult>)
    ensures Subsequence(CountryBatch(rows, Parse(records), now, emits).0, MessageIds(records))
  {
    CountryBatchOutcome(rows, Parse(records), now, emits);
    ReportedAreRecords(records, emits);
  }

  lemma {:induction false} ReportedAreRecords(records: seq<SqsRecord>, emits: seq<EmitResult>)
    ensures Subsequence(ReportedIds(Parse(records), emits), MessageIds(records))
    decreases |records|
  {
    if records != [] {
      var n := |records| - 1;
      var id := records[n].messageId;
      var items := Parse(records);
      ReportedAreRecords(records[..n], emits);
      assert items[..n] == Parse(records[..n]);
      assert items[n].messageId == id;
      assert MessageIds(records) == MessageIds(records[..n]) + [id];
      SubsequenceStep(ReportedIds(items[..n], emits), ReportedIds(items, emits), MessageIds(records[..n]), id);
    }
  }

  /** Only valid, hence stored, requests are emitted, in batch order. */
  lemma {:induction false} CountryEmitsOnlyStored(rows: seq<MockRow>, items: seq<Item>, now: int, emits: seq<EmitResult>)
    ensures Subsequence(CountryBatch(rows, items, now, emits).2, EntriesOf(ValidRequests(items)))
  {
    CountryBatchOutcome(rows, items, now, emits);
    EmittedAreValid(items, emits);
  }

  lemma {:induction false} EmittedAreValid(items: seq<Item>, emits: seq<EmitResult>)
    ensures Subsequence(EmittedEntries(items, emits), EntriesOf(ValidRequests(items)))
    decreases |items|
  {
    if items != [] {
      var n := |items| - 1;
      EmittedAreValid(items[..n], emits);
      var before := ValidRequests(items[..n]);
      var v := items[n].payload;
      if v.Some? {
        var e := ProcessedEntry(ToProcessedEvent(v.value));
        assert ValidRequests(items) == before + [v.value];
        assert EntriesOf(before + [v.value]) == EntriesOf(before) + [e];
        SubsequenceStep(EmittedEntries(items[..n], emits), EmittedEntries(items, emits), EntriesOf(before), e);
      } else {
        assert ValidRequests(items) == before;
        assert EmittedEntries(items, emits) == EmittedEntries(items[..n], emits);
      }
    }
  }

  /** A batch of one item: the step of that item. */
  lemma CountryBatchSingle(rows: seq<MockRow>, item: Item, now: int)
    ensures
      var step := CountryStep(rows, item, now, Put);
      CountryBatch(rows, [item], now, []) == (if step.0 then [item.messageId] else [], step.1, step.2)
  {
    CountryBatchAppend(rows, [], item, now, []);
    assert [] + [item] == [item];
    var step := CountryStep(rows, item, now, Put);
    assert CountryBatch(rows, [], now, []) == ([], rows, []);
    assert [] + step.2 == step.2;
    assert [] + [item.messageId] == [item.messageId];
  }

  /** The first country-handler example: one valid payload is stored once and emitted once. */
  lemma StoresAndEmitsValidPayload(rows: seq<MockRow>, now: int)
    ensures
      var payload := AppointmentRequest("12345", 99, "PE");
      CountryBatch(rows, Parse([SqsRecord("m0", Some(RequestJson(payload)))]), now, [])
        == ([], rows + [RowOfRequest(payload, now)], [ProcessedEntry(ToProcessedEvent(payload))])
  {
    var payload := AppointmentRequest("12345", 99, "PE");
    ValidateRoundTrip(payload);
    var records := [SqsRecord("m0", Some(RequestJson(payload)))];
    var items := Parse(records);
    assert records[..0] == [];
    assert items == [Item("m0", Some(payload))];
    CountryBatchSingle(rows, items[0], now);
  }

  /** The second example: an insuredId of two characters fails the record and stores and emits nothing. */
  lemma RejectsShortInsuredId(rows: seq<MockRow>, now: int)
    ensures
      var bad := AppointmentRequest("12", 1, "PE");
      CountryBatch(rows, Parse([SqsRecord("m0", Some(RequestJson(bad)))]), now, []) == (["m0"], rows, [])
  {
    var bad := AppointmentRequest("12", 1, "PE");
    assert !IsStringOfLength(RequestJson(bad).fields["insuredId"], 5);
    assert !SatisfiesSchema(RequestJson(bad));
    var records := [SqsRecord("m0", Some(RequestJson(bad)))];
    var items := Parse(records);
    assert records[..0] == [];
    assert items == [Item("m0", None)];
    CountryBatchSingle(rows, items[0], now);
  }

  /**
   * The handler never compares the payload's countryISO with its own: a
   * valid payload of another country is stored in this handler's partition
   * and emitted as processed, yet the partition's SELECT does not list it.
   */
  lemma {:induction false} ForeignPayloadStoredNotListed(db: Partitions, key: string, item: Item, now: int, db': Partitions)
    requires item.payload.Some? && ToUpper(item.payload.value.countryISO) != key
    requires Partition(db', key) == CountryBatch(Partition(db, key), [item], now, []).1
    ensures
      var request := item.payload.value;
      var out := CountryBatch(Partition(db, key), [item], now, []);
      && out.0 == []
      && out.1 == Partition(db, key) + [RowOfRequest(request, now)]
      && out.2 == [ProcessedEntry(ToProcessedEvent(request))]
      && Listing(db', key) == Listing(db, key)
  {
    CountryBatchSingle(Partition(db, key), item, now);
    var row := RowOfRequest(item.payload.value, now);
    ListingAfterAppend(db, key, row);
    assert Partition(db', key) == Partition(Append(db, key, row), key);
  }

  /** The handler function `buildCountryAppointmentHandler` returns, with its repository and emitter. */
  class CountryAppointmentHandler {
    const countryISO: CountryISO
    const repository: CountryRepository
    const emitter: EventBus

    predicate Valid()
      reads this, repository, repository.registry
    {
      repository.countryISO == countryISO && repository.registry.Valid()
    }

    /** `buildCountryAppointmentHandler(countryISO)`, over the shared database and bus. */
    constructor (countryISO: CountryISO, db: MockDb, bus: EventBus)
      ensures Valid() && this.countryISO == countryISO && emitter == bus
      ensures repository.registry.db == db && fresh(repository) && fresh(repository.registry)
    {
      this.countryISO := countryISO;
      repository := new CountryRepository(countryISO, db);
      emitter := bus;
    }

    /** The body of the handler's loop: one record, stored then emitted; `failed` when it threw. */
    method HandleRecord(record: SqsRecord, now: int, emit: EmitResult) returns (failed: bool)
      requires Valid()
      modifies repository.registry, repository.registry.db, emitter
      ensures Valid()
      ensures
        var key := KeyOf(countryISO);
        var step := CountryStep(Partition(old(repository.registry.db.partitions), key), Item(record.messageId, ValidateBody(record.body)), now, emit);
        && failed == step.0
        && Partition(repository.registry.db.partitions, key) == step.1
        && (forall k :: k != key ==> Partition(repository.registry.db.partitions, k) == Partition(old(repository.registry.db.partitions), k))
        && emitter.entries == old(emitter.entries) + step.2
    {
      var validated := ValidateBody(record.body);
      if validated.None? {
        assert old(emitter.entries) + [] == old(emitter.entries);
        return true;
      }
      var request := validated.value;
      ghost var before := repository.registry.db.partitions;
      repository.StoreAppointment(request, now);
      forall k | k != KeyOf(countryISO)
        ensures Partition(repository.registry.db.partitions, k) == Partition(before, k)
      {
        AppendKeepsOthers(before, KeyOf(countryISO), RowOfRequest(request, now), k);
      }
      var ok := emitter.EmitProcessed(ToProcessedEvent(request), emit);
      if !ok {
        assert old(emitter.entries) + [] == old(emitter.entries);
      }
      failed := !ok;
    }

    /**
     * The handler's loop over a batch; `now` is the clock and `emits`
     * which emits fail. Rows go to this handler's partition and no other.
     */
    method Handle(records: seq<SqsRecord>, now: int, emits: seq<EmitResult>) returns (failures: seq<string>)
      requires Valid()
      modifies repository.registry, repository.registry.db, emitter
      ensures Valid()
      ensures
        var key := KeyOf(countryISO);
        var out := CountryBatch(Partition(old(repository.registry.db.partitions), key), Parse(records), now, emits);
        && failures == out.0
        && Partition(repository.registry.db.partitions, key) == out.1
        && (forall k :: k != key ==> Partition(repository.registry.db.partitions, k) == Partition(old(repository.registry.db.partitions), k))
        && emitter.entries == old(emitter.entries) + out.2
    {
      var db := repository.registry.db;
      ghost var key := KeyOf(countryISO);
      ghost var start := db.partitions;
      ghost var log := emitter.entries;
      failures := [];
      var i := 0;
      HandledNone(Partition(start, key), records, now, emits, log);
      while i < |records|
        invariant 0 <= i <= |records|
        invariant Valid() && repository.registry.db == db
        invariant HandledPrefix(Partition(start, key), records, i, now, emits, log, failures, Partition(db.partitions, key), emitter.entries)
        invariant forall k :: k != key ==> Partition(db.partitions, k) == Partition(start, k)
      {
        ghost var part := Partition(db.partitions, key);
        ghost var entries := emitter.entries;
        var failed := HandleRecord(records[i], now, EmitAt(emits, i));
        CountryBatchAdvance(Partition(start, key), records, i, now, emits, log, failures, part, entries,
                            failed, Partition(db.partitions, key), emitter.entries);
        if failed {
          failures := failures + [records[i].messageId];
        }
        i := i + 1;
      }
      HandledAll(Partition(start, key), records, now, emits, log, failures, Partition(db.partitions, key), emitter.entries);
    }
  }

  /** The Chile and Peru Lambdas are the same handler for "CL" and "PE". */
  method BuildCountryHandlers(db: MockDb, bus: EventBus) returns (cl: CountryAppointmentHandler, pe: CountryAppointmentHandler)
    ensures cl.Valid() && cl.countryISO == CL && cl.emitter == bus && cl.repository.registry.db == db
    ensures pe.Valid() && pe.countryISO == PE && pe.emitter == bus && pe.repository.registry.db == db
  {
    cl := new CountryAppointmentHandler(CL, db, bus);
    pe := new CountryAppointmentHandler(PE, db, bus);
  }
}
