/**
 * The in-memory country database of src/adapters/AWSRdsMySqlRepository.ts as
 * a value: the module-wide map from an upper-cased country key to that
 * partition's rows, and the pure SELECT pipeline over it (copy, keep the
 * rows of the key's country, sort newest first, drop createdAt).
 */
module CountryRows {
  import opened Types
  import opened Text

  /** One stored row; createdAt is in epoch millis. */
  datatype MockRow = MockRow(insuredId: string, scheduleId: int, countryISO: string, createdAt: int)

  /** The shared database: one list of rows per country key. */
  type Partitions = map<string, seq<MockRow>>

  /** `mockDb.get(key) ?? []`. */
  function Partition(db: Partitions, key: string): seq<MockRow> {
    if key in db then db[key] else []
  }

  /** The database after `list.push(row)` on the key's partition and `mockDb.set(key, list)`. */
  function Append(db: Partitions, key: string, row: MockRow): (db': Partitions)
    ensures Partition(db', key) == Partition(db, key) + [row]
  {
    db[key := Partition(db, key) + [row]]
  }

  /** An insert touches its own partition only. */
  lemma AppendKeepsOthers(db: Partitions, key: string, row: MockRow, k: string)
    requires k != key
    ensures Partition(Append(db, key, row), k) == Partition(db, k)
  {
  }

  /** The row a request becomes when stored at instant `now`. */
  function RowOfRequest(request: AppointmentRequest, now: int): MockRow {
    MockRow(request.insuredId, request.scheduleId, request.countryISO, now)
  }

  /** The triple a listed row is returned as. */
  function Triple(r: MockRow): AppointmentRequest {
    AppointmentRequest(r.insuredId, r.scheduleId, r.countryISO)
  }

  /** Storing and listing a request gives the request back: only createdAt is dropped. */
  lemma TripleOfRow(request: AppointmentRequest, now: int)
    ensures Triple(RowOfRequest(request, now)) == request
  {
  }

  /** The filter `r.countryISO.toUpperCase() === key`. */
  predicate OfCountry(r: MockRow, key: string) {
    ToUpper(r.countryISO) == key
  }

  function FilterCountry(rows: seq<MockRow>, key: string): (rs: seq<MockRow>)
    ensures forall r :: r in rs ==> r in rows && OfCountry(r, key)
    ensures forall r :: r in rows && OfCountry(r, key) ==> r in rs
    decreases |rows|
  {
    if rows == [] then []
    else
      var last := rows[|rows| - 1];
      assert rows == rows[..|rows| - 1] + [last];
      FilterCountry(rows[..|rows| - 1], key) + (if OfCountry(last, key) then [last] else [])
  }

  /** Newest first: createdAt never increases along the sequence. */
  predicate NewestFirstOrder(rows: seq<MockRow>) {
    forall i, j :: 0 <= i < j < |rows| ==> rows[i].createdAt >= rows[j].createdAt
  }

  /** Insert `x` into a newest-first sequence, ahead of every row with the same or an older createdAt. */
  function InsertNewest(x: MockRow, rows: seq<MockRow>): seq<MockRow>
    decreases |rows|
  {
    if rows == [] then [x]
    else if rows[0].createdAt > x.createdAt then [rows[0]] + InsertNewest(x, rows[1..])
    else [x] + rows
  }

  lemma {:induction false} InsertNewestMultiset(x: MockRow, rows: seq<MockRow>)
    ensures multiset(InsertNewest(x, rows)) == multiset(rows) + multiset{x}
    decreases |rows|
  {
    if rows != [] && rows[0].createdAt > x.createdAt {
      InsertNewestMultiset(x, rows[1..]);
      assert rows == [rows[0]] + rows[1..];
    }
  }

  /** A row no older than every row of a newest-first sequence can head it. */
  lemma ConsNewestFirst(h: MockRow, tail: seq<MockRow>)
    requires NewestFirstOrder(tail)
    requires forall j :: 0 <= j < |tail| ==> h.createdAt >= tail[j].createdAt
    ensures NewestFirstOrder([h] + tail)
  {
    var r := [h] + tail;
    forall i, j | 0 <= i < j < |r| ensures r[i].createdAt >= r[j].createdAt {
      assert r[j] == tail[j - 1];
      if i > 0 {
        assert r[i] == tail[i - 1];
      }
    }
  }

  /** Inserting a younger row behind the head keeps the head ahead of everything. */
  lemma InsertBehindHead(x: MockRow, rows: seq<MockRow>)
    requires rows != [] && NewestFirstOrder(rows) && rows[0].createdAt > x.createdAt
    ensures forall j :: 0 <= j < |InsertNewest(x, rows[1..])| ==> rows[0].createdAt >= InsertNewest(x, rows[1..])[j].createdAt
  {
    var tail := InsertNewest(x, rows[1..]);
    InsertNewestMultiset(x, rows[1..]);
    forall j | 0 <= j < |tail| ensures rows[0].createdAt >= tail[j].createdAt {
      assert tail[j] in multiset(tail);
      assert tail[j] == x || tail[j] in rows[1..];
    }
  }

  lemma {:induction false} InsertNewestOrder(x: MockRow, rows: seq<MockRow>)
    requires NewestFirstOrder(rows)
    ensures NewestFirstOrder(InsertNewest(x, rows))
    decreases |rows|
  {
    if rows == [] {
    } else if rows[0].createdAt > x.createdAt {
      InsertNewestOrder(x, rows[1..]);
      InsertBehindHead(x, rows);
      ConsNewestFirst(rows[0], InsertNewest(x, rows[1..]));
    } else {
      ConsNewestFirst(x, rows);
    }
  }

  /** `sort((a, b) => b.createdAt - a.createdAt)`: a stable sort, newest first. */
  function NewestFirst(rows: seq<MockRow>): seq<MockRow>
    decreases |rows|
  {
    if rows == [] then [] else InsertNewest(rows[0], NewestFirst(rows[1..]))
  }

  /** The sort's output is newest first and is a permutation of its input. */
  lemma {:induction false} NewestFirstSortsAndPermutes(rows: seq<MockRow>)
    ensures NewestFirstOrder(NewestFirst(rows))
    ensures multiset(NewestFirst(rows)) == multiset(rows)
    decreases |rows|
  {
    if rows != [] {
      var rest := NewestFirst(rows[1..]);
      NewestFirstSortsAndPermutes(rows[1..]);
      InsertNewestOrder(rows[0], rest);
      InsertNewestMultiset(rows[0], rest);
      assert rows == [rows[0]] + rows[1..];
    }
  }

  /** The rows with a given createdAt, in their order. */
  function AtTime(rows: seq<MockRow>, t: int): seq<MockRow>
    decreases |rows|
  {
    if rows == [] then []
    else (if rows[0].createdAt == t then [rows[0]] else []) + AtTime(rows[1..], t)
  }

  lemma {:induction false} InsertNewestStable(x: MockRow, rows: seq<MockRow>, t: int)
    ensures AtTime(InsertNewest(x, rows), t) == (if x.createdAt == t then [x] else []) + AtTime(rows, t)
    decreases |rows|
  {
    if rows != [] && rows[0].createdAt > x.createdAt {
      InsertNewestStable(x, rows[1..], t);
      var tail := InsertNewest(x, rows[1..]);
      assert ([rows[0]] + tail)[1..] == tail;
    } else if rows != [] {
      assert ([x] + rows)[1..] == rows;
    }
  }

  /** The sort is stable: rows with equal createdAt keep their relative order. */
  lemma {:induction false} NewestFirstStable(rows: seq<MockRow>, t: int)
    ensures AtTime(NewestFirst(rows), t) == AtTime(rows, t)
    decreases |rows|
  {
    if rows != [] {
      NewestFirstStable(rows[1..], t);
      InsertNewestStable(rows[0], NewestFirst(rows[1..]), t);
    }
  }

  function Project(rows: seq<MockRow>): (r: seq<AppointmentRequest>)
    ensures |r| == |rows| && forall i :: 0 <= i < |rows| ==> r[i] == Triple(rows[i])
  {
    seq(|rows|, i requires 0 <= i < |rows| => Triple(rows[i]))
  }

  /** The rows SELECT returns, before createdAt is dropped. */
  function SelectedRows(db: Partitions, key: string): seq<MockRow> {
    NewestFirst(FilterCountry(Partition(db, key), key))
  }

  /** What SELECT returns for a pool of the given key. */
  function Listing(db: Partitions, key: string): seq<AppointmentRequest> {
    Project(SelectedRows(db, key))
  }

  /**
   * SELECT returns the key's own rows whose upper-cased countryISO is the
   * key, newest first, each as often as it is stored.
   */
  lemma SelectContract(db: Partitions, key: string)
    ensures NewestFirstOrder(SelectedRows(db, key))
    ensures multiset(SelectedRows(db, key)) == multiset(FilterCountry(Partition(db, key), key))
    ensures forall r :: r in SelectedRows(db, key) <==> r in Partition(db, key) && OfCountry(r, key)
  {
    var f := FilterCountry(Partition(db, key), key);
    NewestFirstSortsAndPermutes(f);
    forall r ensures r in SelectedRows(db, key) <==> r in f {
      assert r in SelectedRows(db, key) <==> r in multiset(SelectedRows(db, key));
      assert r in f <==> r in multiset(f);
    }
  }

  lemma {:induction false} FilterAppend(rows: seq<MockRow>, row: MockRow, key: string)
    ensures FilterCountry(rows + [row], key) == FilterCountry(rows, key) + (if OfCountry(row, key) then [row] else [])
  {
    assert (rows + [row])[..|rows|] == rows;
  }

  /**
   * After an insert into a key's partition, that key's listing contains the
   * row's triple when the row's countryISO upper-cases to the key, and is
   * unchanged otherwise: such a row is stored but never listed.
   */
  lemma {:induction false} ListingAfterAppend(db: Partitions, key: string, row: MockRow)
    ensures OfCountry(row, key) ==> Triple(row) in Listing(Append(db, key, row), key)
    ensures !OfCountry(row, key) ==> Listing(Append(db, key, row), key) == Listing(db, key)
  {
    var db' := Append(db, key, row);
    FilterAppend(Partition(db, key), row, key);
    if OfCountry(row, key) {
      SelectContract(db', key);
      var s := SelectedRows(db', key);
      assert row in s;
      var i :| 0 <= i < |s| && s[i] == row;
      assert Listing(db', key)[i] == Triple(row);
    } else {
      assert FilterCountry(Partition(db', key), key) == FilterCountry(Partition(db, key), key);
    }
  }

  /** An insert leaves the listings of the other keys as they were. */
  lemma ListingOthersAfterAppend(db: Partitions, key: string, row: MockRow, k: string)
    requires k != key
    ensures Listing(Append(db, key, row), k) == Listing(db, k)
  {
    AppendKeepsOthers(db, key, row, k);
  }
}
