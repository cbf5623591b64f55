/**
 * The appointment table (src/adapters/AWSDynamoDBRepository.ts): records by
 * id, a lookup by insuredId, and the guarded pending -> completed update.
 * The table is a value `Table`; its operations are pure functions, and the
 * class `AppointmentRepository` holds the table in fields and performs them
 * in place. Whether an SDK call fails is an input of each operation.
 */
module AppointmentStore {
  import opened Wrappers
  import opened Types

  /** The errors the repository throws. */
  datatype StoreError = SaveFailed | ReadFailed(insuredId: string) | UpdateFailed

  /**
   * The table: records by id, and `order`, the order in which the insuredId
   * index returns ids (here, the order in which they were put).
   */
  datatype Table = Table(items: map<string, AppointmentRecord>, order: seq<string>)

  const EmptyTable: Table := Table(map[], [])

  /** Every record is stored under its own id, and `order` lists every id exactly once. */
  predicate ValidTable(t: Table) {
    && (forall id :: id in t.items ==> t.items[id].id == id)
    && (forall i :: 0 <= i < |t.order| ==> t.order[i] in t.items)
    && (forall id :: id in t.items ==> id in t.order)
    && (forall i, j :: 0 <= i < j < |t.order| ==> t.order[i] != t.order[j])
  }

  /** The item `saveAppointment` writes. */
  function NewRecord(request: AppointmentRequest, id: string, now: int): (r: AppointmentRecord)
    ensures r.Request() == request && r.id == id
    ensures r.status == Pending && r.createdAt == now && r.updatedAt == r.createdAt
  {
    RecordOf(request, id, Pending, now, now)
  }

  /** The table after a successful put of a new record under a fresh id. */
  function Save(t: Table, request: AppointmentRequest, id: string, now: int): (t': Table)
    requires ValidTable(t) && id !in t.items
    ensures ValidTable(t')
    ensures t'.items.Keys == t.items.Keys + {id} && t'.items[id] == NewRecord(request, id, now)
    ensures forall k :: k in t.items ==> t'.items[k] == t.items[k]
  {
    var t' := Table(t.items[id := NewRecord(request, id, now)], t.order + [id]);
    assert forall i :: 0 <= i < |t.order| ==> t'.order[i] == t.order[i];
    t'
  }

  /** The records whose ids `order` lists, kept when their insuredId is the one asked for. */
  function Lookup(items: map<string, AppointmentRecord>, order: seq<string>, insuredId: string): (rs: seq<AppointmentRecord>)
    ensures forall r :: r in rs ==> r in items.Values && r.insuredId == insuredId
    decreases |order|
  {
    if order == [] then []
    else
      var last := order[|order| - 1];
      Lookup(items, order[..|order| - 1], insuredId)
        + (if last in items && items[last].insuredId == insuredId then [items[last]] else [])
  }

  /** The query on the insuredId index, in lookup order. */
  function ByInsured(t: Table, insuredId: string): (rs: seq<AppointmentRecord>)
    ensures forall r :: r in rs ==> r in t.items.Values && r.insuredId == insuredId
  {
    Lookup(t.items, t.order, insuredId)
  }

  lemma {:induction false} LookupFinds(items: map<string, AppointmentRecord>, order: seq<string>, insuredId: string, k: string)
    requires k in order && k in items && items[k].insuredId == insuredId
    ensures items[k] in Lookup(items, order, insuredId)
    decreases |order|
  {
    var last := order[|order| - 1];
    if last != k {
      assert order == order[..|order| - 1] + [last];
      assert k in order[..|order| - 1];
      LookupFinds(items, order[..|order| - 1], insuredId, k);
    }
  }

  /** The query returns exactly the records with the given insuredId. */
  lemma ByInsuredExact(t: Table, insuredId: string)
    requires ValidTable(t)
    ensures forall r :: r in ByInsured(t, insuredId) <==> r in t.items.Values && r.insuredId == insuredId
  {
    forall r | r in t.items.Values && r.insuredId == insuredId
      ensures r in ByInsured(t, insuredId)
    {
      var k :| k in t.items && t.items[k] == r;
      LookupFinds(t.items, t.order, insuredId, k);
    }
  }

  lemma {:induction false} LookupIgnoresUnlisted(items: map<string, AppointmentRecord>, order: seq<string>, insuredId: string, id: string, rec: AppointmentRecord)
    requires id !in order
    ensures Lookup(items[id := rec], order, insuredId) == Lookup(items, order, insuredId)
    decreases |order|
  {
    if order != [] {
      assert order == order[..|order| - 1] + [order[|order| - 1]];
      LookupIgnoresUnlisted(items, order[..|order| - 1], insuredId, id, rec);
    }
  }

  /**
   * After a save, the query for the request's insuredId returns what it
   * returned before followed by the new record; queries for other insured
   * are unchanged.
   */
  lemma {:induction false} SaveThenLookup(t: Table, request: AppointmentRequest, id: string, now: int, insuredId: string)
    requires ValidTable(t) && id !in t.items
    ensures ByInsured(Save(t, request, id, now), insuredId)
         == ByInsured(t, insuredId) + (if insuredId == request.insuredId then [NewRecord(request, id, now)] else [])
  {
    var t' := Save(t, request, id, now);
    assert t'.order[..|t'.order| - 1] == t.order;
    assert id !in t.order;
    LookupIgnoresUnlisted(t.items, t.order, insuredId, id, NewRecord(request, id, now));
  }

  /** What `items.find` looks for. */
  predicate IsPendingMatch(r: AppointmentRecord, scheduleId: int, countryISO: string) {
    r.scheduleId == scheduleId && r.countryISO == countryISO && r.status == Pending
  }

  /** The position of the first pending record with the given scheduleId and countryISO, or |rs|. */
  function FirstPendingIndex(rs: seq<AppointmentRecord>, scheduleId: int, countryISO: string): (k: nat)
    ensures k <= |rs|
    ensures forall j :: 0 <= j < k ==> !IsPendingMatch(rs[j], scheduleId, countryISO)
    ensures k < |rs| ==> IsPendingMatch(rs[k], scheduleId, countryISO)
  {
    if rs == [] then 0
    else if IsPendingMatch(rs[0], scheduleId, countryISO) then 0
    else 1 + FirstPendingIndex(rs[1..], scheduleId, countryISO)
  }

  /** `items.find`: the first pending record with the scheduleId and countryISO, if there is one. */
  function FindPending(rs: seq<AppointmentRecord>, scheduleId: int, countryISO: string): (r: Option<AppointmentRecord>)
    ensures r.Some? ==> r.value in rs && IsPendingMatch(r.value, scheduleId, countryISO)
    ensures r.None? <==> forall j :: 0 <= j < |rs| ==> !IsPendingMatch(rs[j], scheduleId, countryISO)
  {
    var k := FirstPendingIndex(rs, scheduleId, countryISO);
    if k < |rs| then Some(rs[k]) else None
  }

  /** The record after the update `SET status = completed, updatedAt = now`. */
  function MarkCompleted(m: AppointmentRecord, now: int): (u: AppointmentRecord)
    ensures u.Request() == m.Request() && u.id == m.id && u.createdAt == m.createdAt
    ensures u.status == Completed && u.updatedAt == now
  {
    m.(status := Completed, updatedAt := now)
  }

  /** The result of `updateAppointmentToCompleted`: the updated record, None for no match, or the error thrown. */
  type Completion = Result<Option<AppointmentRecord>, StoreError>

  /**
   * `updateAppointmentToCompleted`: query by insuredId, take the first
   * pending record with the given scheduleId and countryISO, and complete it.
   */
  function Complete(t: Table, insuredId: string, scheduleId: int, countryISO: string, now: int, queryFails: bool, updateFails: bool): (out: (Completion, Table))
    ensures out.1.order == t.order
    ensures ValidTable(t) ==> ValidTable(out.1) && out.1.items.Keys == t.items.Keys
    ensures out.0.Failure? || out.0 == Success(None) ==> out.1 == t
    ensures queryFails ==> out.0 == Failure(ReadFailed(insuredId))
    ensures out.0.Failure? ==> queryFails || out.0 == Failure(UpdateFailed)
    ensures out.0 == Failure(UpdateFailed) ==> !queryFails && updateFails
    ensures ValidTable(t) && out.0.Success? && out.0.value.Some? ==>
      var u := out.0.value.value;
      && u.id in t.items
      && t.items[u.id].insuredId == insuredId && IsPendingMatch(t.items[u.id], scheduleId, countryISO)
      && u == MarkCompleted(t.items[u.id], now)
      && out.1.items == t.items[u.id := u]
    ensures ValidTable(t) ==> forall id :: id in t.items && t.items[id].status == Completed ==> out.1.items[id] == t.items[id]
  {
    if queryFails then (Failure(ReadFailed(insuredId)), t)
    else
      match FindPending(ByInsured(t, insuredId), scheduleId, countryISO)
      case None => (Success(None), t)
      case Some(m) =>
        if updateFails then (Failure(UpdateFailed), t)
        else
          assert m in t.items.Values;
          var u := MarkCompleted(m, now);
          (Success(Some(u)), Table(t.items[m.id := u], t.order))
  }

  /** No record of the table is a pending match for the triple. */
  predicate NoPendingMatch(t: Table, insuredId: string, scheduleId: int, countryISO: string) {
    forall r :: r in t.items.Values && r.insuredId == insuredId ==> !IsPendingMatch(r, scheduleId, countryISO)
  }

  /** The call finds nothing to do exactly when no record of the table is a pending match. */
  lemma CompleteNoMatch(t: Table, insuredId: string, scheduleId: int, countryISO: string, now: int, updateFails: bool)
    requires ValidTable(t)
    ensures Complete(t, insuredId, scheduleId, countryISO, now, false, updateFails).0 == Success(None)
        <==> NoPendingMatch(t, insuredId, scheduleId, countryISO)
  {
    ByInsuredExact(t, insuredId);
    var rs := ByInsured(t, insuredId);
    var k := FirstPendingIndex(rs, scheduleId, countryISO);
    if k < |rs| {
      assert rs[k] in rs;
    } else {
      forall r | r in t.items.Values && r.insuredId == insuredId
        ensures !IsPendingMatch(r, scheduleId, countryISO)
      {
        assert r in rs;
        var j :| 0 <= j < |rs| && rs[j] == r;
      }
    }
  }

  /** The call takes the first pending match in lookup order. */
  lemma CompleteTakesFirst(t: Table, insuredId: string, scheduleId: int, countryISO: string, now: int)
    requires ValidTable(t)
    requires Complete(t, insuredId, scheduleId, countryISO, now, false, false).0 != Success(None)
    ensures
      var rs := ByInsured(t, insuredId);
      var u := Complete(t, insuredId, scheduleId, countryISO, now, false, false).0.value.value;
      exists k :: 0 <= k < |rs| && rs[k] == t.items[u.id]
        && forall j :: 0 <= j < k ==> !IsPendingMatch(rs[j], scheduleId, countryISO)
  {
    var rs := ByInsured(t, insuredId);
    var k := FirstPendingIndex(rs, scheduleId, countryISO);
    assert rs[k] in rs;
  }

  /** The ids of the pending records that match the triple. */
  function PendingIds(t: Table, insuredId: string, scheduleId: int, countryISO: string): set<string> {
    set id | id in t.items && t.items[id].insuredId == insuredId && IsPendingMatch(t.items[id], scheduleId, countryISO)
  }

  /** A successful completion takes exactly one record out of the pending matches. */
  lemma CompleteConsumesOne(t: Table, insuredId: string, scheduleId: int, countryISO: string, now: int)
    requires ValidTable(t)
    requires Complete(t, insuredId, scheduleId, countryISO, now, false, false).0 != Success(None)
    ensures
      var (r, t') := Complete(t, insuredId, scheduleId, countryISO, now, false, false);
      && r.value.value.id in PendingIds(t, insuredId, scheduleId, countryISO)
      && PendingIds(t', insuredId, scheduleId, countryISO) == PendingIds(t, insuredId, scheduleId, countryISO) - {r.value.value.id}
  {
  }

  lemma PendingIdsEmpty(t: Table, insuredId: string, scheduleId: int, countryISO: string)
    requires ValidTable(t) && PendingIds(t, insuredId, scheduleId, countryISO) == {}
    ensures NoPendingMatch(t, insuredId, scheduleId, countryISO)
  {
    forall r | r in t.items.Values && r.insuredId == insuredId
      ensures !IsPendingMatch(r, scheduleId, countryISO)
    {
      var k :| k in t.items && t.items[k] == r;
      assert k !in PendingIds(t, insuredId, scheduleId, countryISO);
    }
  }

  /**
   * Redelivery is harmless: when at most one pending record matches the
   * triple, a second call after a successful completion finds nothing, and
   * the completed record stays completed.
   */
  lemma CompleteIdempotent(t: Table, insuredId: string, scheduleId: int, countryISO: string, now1: int, now2: int, updateFails: bool)
    requires ValidTable(t)
    requires |PendingIds(t, insuredId, scheduleId, countryISO)| <= 1
    requires Complete(t, insuredId, scheduleId, countryISO, now1, false, false).0 != Success(None)
    ensures
      var (r1, t1) := Complete(t, insuredId, scheduleId, countryISO, now1, false, false);
      var (r2, t2) := Complete(t1, insuredId, scheduleId, countryISO, now2, false, updateFails);
      && r2 == Success(None) && t2 == t1
      && t2.items[r1.value.value.id].status == Completed
  {
    var (r1, t1) := Complete(t, insuredId, scheduleId, countryISO, now1, false, false);
    CompleteConsumesOne(t, insuredId, scheduleId, countryISO, now1);
    var p := PendingIds(t, insuredId, scheduleId, countryISO);
    assert r1.value.value.id in p;
    var rest := p - {r1.value.value.id};
    assert |rest| == |p| - 1;
    assert rest == {};
    PendingIdsEmpty(t1, insuredId, scheduleId, countryISO);
    CompleteNoMatch(t1, insuredId, scheduleId, countryISO, now2, updateFails);
  }

  /** The appointment table as the repository object holds it. */
  class AppointmentRepository {
    var items: map<string, AppointmentRecord>
    var order: seq<string>

    function State(): Table
      reads this
    {
      Table(items, order)
    }

    predicate Valid()
      reads this
    {
      ValidTable(State())
    }

    constructor ()
      ensures Valid() && State() == EmptyTable
    {
      items := map[];
      order := [];
    }

    /** `saveAppointment`, with `id` the fresh uuid and `now` the clock. */
    method SaveAppointment(request: AppointmentRequest, id: string, now: int, putFails: bool) returns (r: Result<AppointmentRecord, StoreError>)
      requires Valid() && id !in items
      modifies this
      ensures Valid()
      ensures putFails ==> r == Failure(SaveFailed) && State() == old(State())
      ensures !putFails ==> r == Success(NewRecord(request, id, now)) && State() == Save(old(State()), request, id, now)
    {
      var item := NewRecord(request, id, now);
      if putFails {
        return Failure(SaveFailed);
      }
      items := items[id := item];
      order := order + [id];
      r := Success(item);
    }

    /** `getByInsuredId`: exactly the records of that insured, in lookup order. */
    method GetByInsuredId(insuredId: string, queryFails: bool) returns (r: Result<seq<AppointmentRecord>, StoreError>)
      requires Valid()
      ensures queryFails ==> r == Failure(ReadFailed(insuredId))
      ensures !queryFails ==> r.Success? && r.value == ByInsured(State(), insuredId)
      ensures !queryFails ==> forall x :: x in r.value <==> x in items.Values && x.insuredId == insuredId
    {
      if queryFails {
        return Failure(ReadFailed(insuredId));
      }
      ByInsuredExact(State(), insuredId);
      r := Success(ByInsured(State(), insuredId));
    }

    /** `updateAppointmentToCompleted`. */
    method UpdateAppointmentToCompleted(insuredId: string, scheduleId: int, countryISO: string, now: int, queryFails: bool, updateFails: bool)
      returns (r: Completion)
      requires Valid()
      modifies this
      ensures Valid()
      ensures (r, State()) == Complete(old(State()), insuredId, scheduleId, countryISO, now, queryFails, updateFails)
    {
      var found := GetByInsuredId(insuredId, queryFails);
      if found.Failure? {
        return Failure(found.error);
      }
      var rs := found.value;
      var k := FirstPendingIndex(rs, scheduleId, countryISO);
      if k == |rs| {
        return Success(None);
      }
      var m := rs[k];
      if updateFails {
        return Failure(UpdateFailed);
      }
      var updated := MarkCompleted(m, now);
      items := items[m.id := updated];
      r := Success(Some(updated));
    }
  }
}
