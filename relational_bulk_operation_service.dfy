/**
 * The bulk operation service registered for every relational provider other than Sqlite. Its
 * INSERT names the mapped column names; its UPDATE is the object-major CASE update keyed by the
 * primary key's CLR property name; it has no retrieving insert.
 */
module RelationalBulkOperationService {
  import opened Wrappers
  import opened EntityModel
  import opened ValueRows
  import opened BulkInsert
  import opened CaseUpdate
  import opened DatabaseFacade

  /** `CreateBulkInsertQuery`: the header lists the mapped column names (`GetColumnName()`). */
  method CreateBulkInsertQuery(t: EntityType, objs: seq<Entity>) returns (r: Result<Query>)
    requires |t.properties| > 0
    ensures r == ColumnInsert(t, objs)
  {
    if |objs| == 0 {
      return Err(ArgumentException);
    }
    var header := InsertHeader(t.tableName, ColumnNames(t.properties));
    r := BuildValues(header, t, objs);
  }

  /** `CreateBulkUpdateQuery`: the key is found, and written, by the key property's CLR name. */
  method CreateBulkUpdateQuery(t: EntityType, objs: seq<Entity>, names: seq<string>) returns (r: Result<UpdateQuery>)
    ensures r == UpdateOutcome(t, t.primaryKey.name, objs, names)
  {
    r := BuildCaseUpdate(t, t.primaryKey.name, objs, names);
  }

  /** `ExecuteBulkInsert(Async)`: build the insert and run it; a failed build runs nothing. */
  method ExecuteBulkInsert(db: Database, t: EntityType, objs: seq<Entity>) returns (r: Result<int>)
    requires |t.properties| > 0
    modifies db
    ensures var q := ColumnInsert(t, objs);
            && (q.Err? ==> r == Err(q.error) && db.log == old(db.log))
            && (q.Ok? ==> var s := Statement(q.value.text, q.value.parameters);
                          r == Ok(db.affected(s)) && db.log == old(db.log) + [s])
  {
    var q := CreateBulkInsertQuery(t, objs);
    if q.Err? {
      return Err(q.error);
    }
    var n := db.ExecuteSqlRaw(q.value.text, q.value.parameters);
    r := Ok(n);
  }

  /** `ExecuteBulkUpdate(Async)`: build the update and run it; a failed build runs nothing. */
  method ExecuteBulkUpdate(db: Database, t: EntityType, objs: seq<Entity>, names: seq<string>) returns (r: Result<int>)
    modifies db
    ensures var q := UpdateOutcome(t, t.primaryKey.name, objs, names);
            && (q.Err? ==> r == Err(q.error) && db.log == old(db.log))
            && (q.Ok? ==> var s := Statement(q.value.text, q.value.parameters);
                          r == Ok(db.affected(s)) && db.log == old(db.log) + [s])
  {
    var q := CreateBulkUpdateQuery(t, objs, names);
    if q.Err? {
      return Err(q.error);
    }
    var n := db.ExecuteSqlRaw(q.value.text, q.value.parameters);
    r := Ok(n);
  }

  /** `ExecuteBulkInsertRetrieve(Async)`: not supported; throws before touching the database. */
  method ExecuteBulkInsertRetrieve(db: Database, t: EntityType, objs: seq<Entity>, batchSize: int)
    returns (r: Result<seq<Entity>>)
    ensures r == Err(NotImplementedException)
  {
    r := Err(NotImplementedException);
  }
}
