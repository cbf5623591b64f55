/**
 * The country repository of src/adapters/AWSRdsMySqlRepository.ts: the
 * module-wide in-memory database `mockDb` (an object every pool shares), the
 * mock pool that runs INSERT and SELECT against its own partition, the
 * registry that memoises one pool per upper-cased country code, and the
 * repository that stores and lists a country's appointments.
 */
module CountryStore {
  import opened Wrappers
  import opened Types
  import opened Text
  import opened CountryRows

  /** A bound SQL parameter: text, a number, or a Date (epoch millis). */
  datatype Param = TextParam(s: string) | NumberParam(n: int) | DateParam(millis: int)

  /** The errors the mock pool throws. */
  datatype SqlError = InsertParamsInvalid | UnsupportedSql(sql: string)

  /** The statement `storeAppointment` runs. */
  const InsertSql: string :=
    "INSERT INTO" + " appointments (insuredId, scheduleId, countryISO, createdAt)\n                     VALUES (?, ?, ?, ?)"

  /** The statement `getAll` runs. */
  const SelectSql: string :=
    "SELECT" + " insuredId, scheduleId, countryISO\n             FROM appointments\n             WHERE countryISO = ?\n             ORDER BY createdAt DESC"

  /** `sql.trim().toUpperCase()`. */
  function Normalize(sql: string): string {
    ToUpper(Trim(sql))
  }

  /** A normal form has no ASCII lower-case letter and neither starts nor ends with whitespace. */
  lemma NormalFormClean(sql: string)
    ensures forall i :: 0 <= i < |Normalize(sql)| ==> !('a' <= Normalize(sql)[i] <= 'z')
    ensures Normalize(sql) != [] ==> !IsJsWhitespace(Normalize(sql)[0]) && !IsJsWhitespace(Normalize(sql)[|Normalize(sql)| - 1])
  {
    var t := Trim(sql);
    if t != [] {
      UpperKeepsWhitespace(t[0]);
      UpperKeepsWhitespace(t[|t| - 1]);
    }
  }

  predicate IsInsert(sql: string) {
    StartsWith(Normalize(sql), "INSERT INTO")
  }

  /** A SELECT is recognised only when the statement is not an INSERT, which is tested first. */
  predicate IsSelect(sql: string) {
    !IsInsert(sql) && StartsWith(Normalize(sql), "SELECT")
  }

  /** The key of a country: its upper-cased code. */
  function KeyOf(c: CountryISO): string {
    ToUpper(c.Code())
  }

  /** The key of a country is its code. */
  lemma KeyOfIsCode(c: CountryISO)
    ensures KeyOf(c) == c.Code()
  {
    UpperOfUpper(c.Code());
  }

  /** A statement that starts with a keyword in capitals and does not end in whitespace is recognised by it. */
  lemma {:induction false} KeywordRecognised(keyword: string, rest: string)
    requires keyword != [] && !IsJsWhitespace(keyword[0])
    requires forall i :: 0 <= i < |keyword| ==> 'A' <= keyword[i] <= 'Z' || keyword[i] == ' '
    requires rest != [] && !IsJsWhitespace(rest[|rest| - 1])
    ensures StartsWith(Normalize(keyword + rest), keyword)
  {
    var sql := keyword + rest;
    assert sql[0] == keyword[0] && sql[|sql| - 1] == rest[|rest| - 1];
    TrimOfTrimmed(sql);
    assert sql[..|keyword|] == keyword;
    UpperKeepsPrefix(sql, keyword);
    UpperOfUpper(keyword);
  }

  lemma {:induction false} InsertSqlIsInsert()
    ensures IsInsert(InsertSql) && !IsSelect(InsertSql)
  {
    KeywordRecognised("INSERT INTO", InsertSql[11..]);
    assert "INSERT INTO" + InsertSql[11..] == InsertSql;
  }

  /** A statement whose normal form starts with SELECT is a SELECT: it cannot also start with INSERT INTO. */
  lemma {:induction false} SelectPrefixed(sql: string)
    requires StartsWith(Normalize(sql), "SELECT")
    ensures IsSelect(sql)
  {
    var n := Normalize(sql);
    assert n[0] == 'S' by {
      assert n[..6][0] == n[0];
    }
    if |n| >= 11 {
      assert n[..11][0] == n[0];
    }
  }

  lemma {:induction false} SelectSqlIsSelect()
    ensures IsSelect(SelectSql)
  {
    KeywordRecognised("SELECT", SelectSql[6..]);
    assert "SELECT" + SelectSql[6..] == SelectSql;
    SelectPrefixed(SelectSql);
  }

  /** Statements are recognised whatever their case: a lower-case `select` is a SELECT. */
  lemma RecognitionIgnoresCase(sql: string)
    ensures IsInsert(ToUpper(sql)) == IsInsert(sql)
    ensures IsSelect(ToUpper(sql)) == IsSelect(sql)
  {
    TrimUpper(sql);
    ToUpperIdempotent(Trim(sql));
  }

  /** Leading whitespace does not change how a statement is recognised. */
  lemma RecognitionIgnoresLeadingWhitespace(sql: string)
    requires sql != [] && IsJsWhitespace(sql[0])
    ensures IsInsert(sql) == IsInsert(sql[1..])
    ensures IsSelect(sql) == IsSelect(sql[1..])
  {
    TrimDropsLeading(sql);
  }

  /** Any statement that is neither an INSERT nor a SELECT, such as a DELETE, is unsupported. */
  lemma {:induction false} DeleteUnsupported(sql: string)
    requires StartsWith(Normalize(sql), "DELETE")
    ensures !IsInsert(sql) && !IsSelect(sql)
  {
    var n := Normalize(sql);
    assert n[0] == 'D' by {
      assert n[..6][0] == n[0];
    }
    assert "INSERT INTO"[0] == 'I' && "SELECT"[0] == 'S';
    if |n| >= 11 {
      assert n[..11][0] == n[0];
    }
    if |n| >= 6 {
      assert n[..6][0] == n[0];
    }
  }

  predicate IsNumeric(p: Param) {
    p.NumberParam? || p.DateParam?
  }

  /** `+p`, and `new Date(p)` read as epoch millis, for a number or a Date. */
  function NumericValue(p: Param): int
    requires IsNumeric(p)
  {
    if p.NumberParam? then p.n else p.millis
  }

  /** `Array.isArray(params) && params.length >= 4`. */
  predicate HasInsertParams(params: Option<seq<Param>>) {
    params.Some? && |params.value| >= 4
  }

  /** The four leading parameters have the kinds `storeAppointment` passes. */
  predicate InsertParamsKinded(ps: seq<Param>) {
    |ps| >= 4 && ps[0].TextParam? && IsNumeric(ps[1]) && ps[2].TextParam? && IsNumeric(ps[3])
  }

  predicate ParamKindsSupported(params: Option<seq<Param>>) {
    HasInsertParams(params) ==> InsertParamsKinded(params.value)
  }

  /** The row an INSERT pushes: `[insuredId, +scheduleId, countryISO, createdAt]`. */
  function RowOfParams(ps: seq<Param>): MockRow
    requires InsertParamsKinded(ps)
  {
    MockRow(ps[0].s, NumericValue(ps[1]), ps[2].s, NumericValue(ps[3]))
  }

  /** The parameters `storeAppointment` binds; the INSERT makes them the payload's row. */
  function InsertParams(payload: AppointmentRequest, now: int): (ps: seq<Param>)
    ensures InsertParamsKinded(ps) && RowOfParams(ps) == RowOfRequest(payload, now)
  {
    [TextParam(payload.insuredId), NumberParam(payload.scheduleId), TextParam(payload.countryISO), DateParam(now)]
  }

  /** The rows a statement returns, or the error it throws. */
  type Execution = Result<seq<AppointmentRequest>, SqlError>

  /** `mockDb`: the one database every pool of the process reads and writes. */
  class MockDb {
    var partitions: Partitions

    constructor ()
      ensures partitions == map[]
    {
      partitions := map[];
    }
  }

  /** The pool `createMockPool(countryISO)` returns. */
  class MockPool {
    const key: string
    const db: MockDb

    constructor (countryISO: CountryISO, db: MockDb)
      ensures key == KeyOf(countryISO) && this.db == db
    {
      key := ToUpper(countryISO.Code());
      this.db := db;
    }

    /** `execute(sql, params)`; `params` is None when it is not an array. */
    method Execute(sql: string, params: Option<seq<Param>>) returns (r: Execution)
      requires IsInsert(sql) ==> ParamKindsSupported(params)
      modifies db
      ensures IsInsert(sql) && !HasInsertParams(params) ==>
        r == Failure(InsertParamsInvalid) && db.partitions == old(db.partitions)
      ensures IsInsert(sql) && HasInsertParams(params) ==>
        r == Success([]) && db.partitions == Append(old(db.partitions), key, RowOfParams(params.value))
      ensures IsSelect(sql) ==>
        r == Success(Listing(old(db.partitions), key)) && db.partitions == old(db.partitions)
      ensures !IsInsert(sql) && !IsSelect(sql) ==>
        r == Failure(UnsupportedSql(sql)) && db.partitions == old(db.partitions)
    {
      var normalized := Normalize(sql);
      if StartsWith(normalized, "INSERT INTO") {
        if params.None? || |params.value| < 4 {
          return Failure(InsertParamsInvalid);
        }
        var list := Partition(db.partitions, key);
        list := list + [RowOfParams(params.value)];
        db.partitions := db.partitions[key := list];
        return Success([]);
      }
      if StartsWith(normalized, "SELECT") {
        var copy := Partition(db.partitions, key);
        var rows := NewestFirst(FilterCountry(copy, key));
        return Success(Project(rows));
      }
      r := Failure(UnsupportedSql(sql));
    }
  }

  /** The in-memory pool registry: one pool per upper-cased country code. */
  class PoolRegistry {
    var pools: map<string, MockPool>
    const db: MockDb

    /** Each cached pool sits under its own key and uses the shared database. */
    predicate Valid()
      reads this
    {
      forall k :: k in pools ==> pools[k].key == k && pools[k].db == db
    }

    constructor (db: MockDb)
      ensures Valid() && pools == map[] && this.db == db
    {
      pools := map[];
      this.db := db;
    }

    /** `getPool`: the cached pool of the key, or a new one that is cached. */
    method GetPool(countryISO: CountryISO) returns (pool: MockPool)
      requires Valid()
      modifies this
      ensures Valid()
      ensures pool.key == KeyOf(countryISO) && pool.db == db
      ensures KeyOf(countryISO) in old(pools) ==> pool == old(pools)[KeyOf(countryISO)] && pools == old(pools)
      ensures KeyOf(countryISO) !in old(pools) ==> fresh(pool) && pools == old(pools)[KeyOf(countryISO) := pool]
    {
      var key := ToUpper(countryISO.Code());
      if key in pools {
        return pools[key];
      }
      pool := new MockPool(countryISO, db);
      pools := pools[key := pool];
    }
  }

  /** `AWSRdsMySqlRepository`: the appointments of one country. */
  class CountryRepository {
    const countryISO: CountryISO
    const registry: PoolRegistry

    constructor (countryISO: CountryISO, db: MockDb)
      ensures this.countryISO == countryISO
      ensures fresh(registry) && registry.db == db && registry.pools == map[] && registry.Valid()
    {
      this.countryISO := countryISO;
      registry := new PoolRegistry(db);
    }

    /** `storeAppointment`: one row with the payload's fields, stamped `now`, at the end of this country's partition. */
    method StoreAppointment(payload: AppointmentRequest, now: int)
      requires registry.Valid()
      modifies registry, registry.db
      ensures registry.Valid()
      ensures registry.db.partitions == Append(old(registry.db.partitions), KeyOf(countryISO), RowOfRequest(payload, now))
    {
      var pool := registry.GetPool(countryISO);
      var params := InsertParams(payload, now);
      InsertSqlIsInsert();
      var _ := pool.Execute(InsertSql, Some(params));
    }

    /** `getAll`: this country's listing, newest first. */
    method GetAll() returns (rows: seq<AppointmentRequest>)
      requires registry.Valid()
      modifies registry, registry.db
      ensures registry.Valid()
      ensures registry.db.partitions == old(registry.db.partitions)
      ensures rows == Listing(registry.db.partitions, KeyOf(countryISO))
    {
      var pool := registry.GetPool(countryISO);
      SelectSqlIsSelect();
      var r := pool.Execute(SelectSql, Some([TextParam(countryISO.Code())]));
      rows := r.value;
    }
  }

  /**
   * Repositories of one country share their rows through the module-wide
   * database: a request stored through one instance is listed by another.
   */
  method SharedAcrossRepositories(db: MockDb, countryISO: CountryISO, payload: AppointmentRequest, now: int)
    returns (rows: seq<AppointmentRequest>)
    requires ToUpper(payload.countryISO) == KeyOf(countryISO)
    modifies db
    ensures payload in rows
  {
    var writer := new CountryRepository(countryISO, db);
    var reader := new CountryRepository(countryISO, db);
    ghost var before := db.partitions;
    writer.StoreAppointment(payload, now);
    rows := reader.GetAll();
    ListingAfterAppend(before, KeyOf(countryISO), RowOfRequest(payload, now));
  }

  /** A second getPool for the same country returns the pool the first one created. */
  method PoolMemoised(registry: PoolRegistry, countryISO: CountryISO) returns (first: MockPool, second: MockPool)
    requires registry.Valid()
    modifies registry
    ensures first == second && KeyOf(countryISO) in registry.pools && registry.pools[KeyOf(countryISO)] == first
  {
    first := registry.GetPool(countryISO);
    second := registry.GetPool(countryISO);
  }
}
