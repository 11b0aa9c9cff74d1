/**
 * The bulk operation service registered for Sqlite. Its INSERT names the CLR property names and
 * can end with a RETURNING clause; its UPDATE is the object-major CASE update keyed by the
 * primary key's column name; its retrieving insert runs one INSERT ... RETURNING per batch.
 */
module SqliteBulkOperationService {
  import opened Wrappers
  import opened SqlText
  import opened Linq
  import opened EntityModel
  import opened ValueRows
  import opened BulkInsert
  import opened CaseUpdate
  import opened ModelSelection
  import opened DatabaseFacade

  // ----- INSERT -----

  /** The header naming the CLR property names (`IProperty.Name`). */
  function NameHeader(t: EntityType): string
  {
    InsertHeader(t.tableName, Names(t.properties))
  }

  /** The clause a retrieving insert ends with: every property name, in declaration order. */
  function Returning(t: EntityType): string
  {
    " RETURNING " + Join(",", Names(t.properties)) + ";"
  }

  /** The outcome of `CreateBulkInsertQuery(context, objects, retrieve)`. */
  function SqliteInsert(t: EntityType, objs: seq<Entity>, retrieve: bool): Result<Query>
  {
    var q := InsertQuery(NameHeader(t), t, objs);
    if q.Ok? && retrieve then Ok(Query(q.value.text + Returning(t), q.value.parameters)) else q
  }

  method CreateBulkInsertQuery(t: EntityType, objs: seq<Entity>, retrieve: bool) returns (r: Result<Query>)
    requires |t.properties| > 0
    ensures r == SqliteInsert(t, objs, retrieve)
  {
    if |objs| == 0 {
      return Err(ArgumentException);
    }
    var header := InsertHeader(t.tableName, Names(t.properties));
    r := BuildValues(header, t, objs);
    if r.Ok? && retrieve {
      var returning := " RETURNING " + Join(",", Names(t.properties)) + ";";
      r := Ok(Query(r.value.text + returning, r.value.parameters));
    }
  }

  // ----- UPDATE -----

  /** `CreateBulkUpdateQuery`: the key is found, and written, by the key property's column name. */
  method CreateBulkUpdateQuery(t: EntityType, objs: seq<Entity>, names: seq<string>) returns (r: Result<UpdateQuery>)
    ensures r == UpdateOutcome(t, t.primaryKey.columnName, objs, names)
  {
    r := BuildCaseUpdate(t, t.primaryKey.columnName, objs, names);
  }

  // ----- Execution -----

  /** `ExecuteBulkInsert(Async)`: build the plain insert and run it; a failed build runs nothing. */
  method ExecuteBulkInsert(db: Database, t: EntityType, objs: seq<Entity>) returns (r: Result<int>)
    requires |t.properties| > 0
    modifies db
    ensures var q := SqliteInsert(t, objs, false);
            && (q.Err? ==> r == Err(q.error) && db.log == old(db.log))
            && (q.Ok? ==> var s := Statement(q.value.text, q.value.parameters);
                          r == Ok(db.affected(s)) && db.log == old(db.log) + [s])
  {
    var q := CreateBulkInsertQuery(t, objs, false);
    if q.Err? {
      return Err(q.error);
    }
    var n := db.ExecuteSqlRaw(q.value.text, q.value.parameters);
    r := Ok(n);
  }

  /** `ExecuteBulkUpdate(Async)`: build the update and run it; a failed build runs nothing. */
  method ExecuteBulkUpdate(db: Database, t: EntityType, objs: seq<Entity>, names: seq<string>) returns (r: Result<int>)
    modifies db
    ensures var q := UpdateOutcome(t, t.primaryKey.columnName, objs, names);
            && (q.Err? ==> r == Err(q.error) && db.log == old(db.log))
            && (q.Ok? ==> var s := Statement(q.value.text, q.value.parameters);
                          r == Ok(db.affected(s)) && db.log == old(db.log) + [s])
  {
    var q := CreateBulkUpdateQuery(t, objs, names);
    if q.Err? {
      return Err(q.error);
    }
    var n := db.ExecuteSqlRaw(q.value.text, q.value.parameters);
    r := Ok(n);
  }

  /**
   * The retrieving insert over `batches`, batch after batch: each batch's INSERT ... RETURNING is
   * run and its rows appended; the first batch whose statement cannot be built stops the run.
   */
  function Retrieve(returned: Statement -> seq<Entity>, t: EntityType, batches: seq<seq<Entity>>): Run<seq<Entity>>
    decreases |batches|
  {
    if batches == [] then Run(Ok([]), [])
    else
      var prior := Retrieve(returned, t, batches[..|batches| - 1]);
      if prior.result.Err? then prior
      else
        match SqliteInsert(t, batches[|batches| - 1], true)
        case Err(e) => Run(Err(e), prior.log)
        case Ok(q) =>
          var s := Statement(q.text, q.parameters);
          Run(Ok(prior.result.value + returned(s)), prior.log + [s])
  }

  lemma RetrieveStep(returned: Statement -> seq<Entity>, t: EntityType, batches: seq<seq<Entity>>, i: nat)
    requires i < |batches|
    ensures Retrieve(returned, t, batches[..i + 1])
            == var prior := Retrieve(returned, t, batches[..i]);
               if prior.result.Err? then prior
               else
                 var q := SqliteInsert(t, batches[i], true);
                 if q.Err? then Run(Err(q.error), prior.log)
                 else
                   var s := Statement(q.value.text, q.value.parameters);
                   Run(Ok(prior.result.value + returned(s)), prior.log + [s])
  {
    assert batches[..i + 1][..i] == batches[..i];
  }

  /** Once a batch fails, the later batches change nothing. */
  lemma {:induction false} RetrieveFail(returned: Statement -> seq<Entity>, t: EntityType, batches: seq<seq<Entity>>, n: nat)
    requires n <= |batches| && Retrieve(returned, t, batches[..n]).result.Err?
    ensures Retrieve(returned, t, batches) == Retrieve(returned, t, batches[..n])
    decreases |batches| - n
  {
    if n < |batches| {
      RetrieveStep(returned, t, batches, n);
      RetrieveFail(returned, t, batches, n + 1);
    } else {
      assert batches[..n] == batches;
    }
  }

  /**
   * `ExecuteBulkInsertRetrieve(Async)`: split the objects into batches and run one retrieving
   * insert per batch, concatenating the returned rows in batch order.
   */
  method ExecuteBulkInsertRetrieve(db: Database, t: EntityType, objs: seq<Entity>, batchSize: int)
    returns (r: Result<seq<Entity>>)
    requires |t.properties| > 0
    requires batchSize > 0 || objs == []
    modifies db
    ensures var run := Retrieve(db.returned, t, Batches(objs, batchSize));
            r == run.result && db.log == old(db.log) + run.log
  {
    var batches := SplitIntoBatches(objs, batchSize);
    var values: seq<Entity> := [];
    var i := 0;
    assert batches[..0] == [];
    while i < |batches|
      invariant 0 <= i <= |batches|
      invariant Retrieve(db.returned, t, batches[..i]).result == Ok(values)
      invariant db.log == old(db.log) + Retrieve(db.returned, t, batches[..i]).log
    {
      var rows := RetrieveBatch(db, t, batches, i, values, old(db.log));
      if rows.Err? {
        RetrieveFail(db.returned, t, batches, i + 1);
        return Err(rows.error);
      }
      values := values + rows.value;
      i := i + 1;
    }
    assert batches[..i] == batches;
    r := Ok(values);
  }

  /** One iteration of the retrieving loop: build batch i's INSERT ... RETURNING and, when it builds, run it. */
  method RetrieveBatch(db: Database, t: EntityType, batches: seq<seq<Entity>>, i: nat,
                       ghost values: seq<Entity>, ghost base: seq<Statement>) returns (r: Result<seq<Entity>>)
    requires |t.properties| > 0 && i < |batches|
    requires Retrieve(db.returned, t, batches[..i]).result == Ok(values)
    requires db.log == base + Retrieve(db.returned, t, batches[..i]).log
    modifies db
    ensures var next := Retrieve(db.returned, t, batches[..i + 1]);
            && (r.Err? ==> next.result == Err(r.error))
            && (r.Ok? ==> next.result == Ok(values + r.value))
            && db.log == base + next.log
  {
    ghost var prior := Retrieve(db.returned, t, batches[..i]);
    RetrieveStep(db.returned, t, batches, i);
    var q := CreateBulkInsertQuery(t, batches[i], true);
    if q.Err? {
      return Err(q.error);
    }
    ghost var s := Statement(q.value.text, q.value.parameters);
    var rows := db.SqlQueryRaw(q.value.text, q.value.parameters);
    AppendAssoc(base, prior.log, [s]);
    r := Ok(rows);
  }

  // ----- Properties of the retrieving insert -----

  /** The statement a readable, non-empty batch sends. */
  function RetrieveStatement(t: EntityType, batch: seq<Entity>): Statement
  {
    Statement(InsertText(NameHeader(t), t.properties, batch) + Returning(t), BatchParams(t.properties, batch))
  }

  /** One statement per batch, in batch order. */
  function RetrieveStatements(t: EntityType, batches: seq<seq<Entity>>): (r: seq<Statement>)
    ensures |r| == |batches|
  {
    Map((b: seq<Entity>) => RetrieveStatement(t, b), batches)
  }

  /**
   * With every property readable and no empty batch, every batch runs: the log is one statement
   * per batch in order, and the result is the rows they return, concatenated in that order.
   */
  lemma {:induction false} RetrieveReadable(returned: Statement -> seq<Entity>, t: EntityType, batches: seq<seq<Entity>>)
    requires Readable(t)
    requires forall i :: 0 <= i < |batches| ==> batches[i] != []
    ensures var ss := RetrieveStatements(t, batches);
            Retrieve(returned, t, batches) == Run(Ok(Flatten(Map(returned, ss))), ss)
    decreases |batches|
  {
    if batches != [] {
      var prior := batches[..|batches| - 1];
      assert forall i :: 0 <= i < |prior| ==> prior[i] != [] by {
        assert forall i :: 0 <= i < |prior| ==> prior[i] == batches[i];
      }
      RetrieveReadable(returned, t, prior);
      RetrieveReadableStep(returned, t, batches);
    }
  }

  /** One more readable batch appends its statement and the rows it returns. */
  lemma RetrieveReadableStep(returned: Statement -> seq<Entity>, t: EntityType, batches: seq<seq<Entity>>)
    requires Readable(t) && batches != [] && batches[|batches| - 1] != []
    requires var ss := RetrieveStatements(t, batches[..|batches| - 1]);
             Retrieve(returned, t, batches[..|batches| - 1]) == Run(Ok(Flatten(Map(returned, ss))), ss)
    ensures var ss := RetrieveStatements(t, batches);
            Retrieve(returned, t, batches) == Run(Ok(Flatten(Map(returned, ss))), ss)
  {
    var prior := batches[..|batches| - 1];
    var last := batches[|batches| - 1];
    var ss := RetrieveStatements(t, prior);
    var s := RetrieveStatement(t, last);
    RetrieveInsert(t, last);
    assert Retrieve(returned, t, batches) == Run(Ok(Flatten(Map(returned, ss)) + returned(s)), ss + [s]);
    assert RetrieveStatements(t, batches) == ss + [s];
    MapSnoc(returned, ss, s);
    FlattenSnoc(Map(returned, ss), returned(s));
  }

  /** A readable, non-empty batch builds exactly its retrieve statement. */
  lemma RetrieveInsert(t: EntityType, batch: seq<Entity>)
    requires Readable(t) && batch != []
    ensures var s := RetrieveStatement(t, batch); SqliteInsert(t, batch, true) == Ok(Query(s.text, s.parameters))
  {
  }

  /** With some property unreadable, the first batch fails and nothing runs. */
  lemma {:induction false} RetrieveUnreadable(returned: Statement -> seq<Entity>, t: EntityType, batches: seq<seq<Entity>>)
    requires !Readable(t) && batches != [] && batches[0] != []
    ensures Retrieve(returned, t, batches) == Run(Err(NullReferenceException), [])
    decreases |batches|
  {
    if |batches| > 1 {
      RetrieveUnreadable(returned, t, batches[..|batches| - 1]);
    }
  }

  /**
   * The retrieving insert as a whole: no objects return no rows and run nothing (there is no
   * batch, so no ArgumentException); an unreadable property throws before any statement runs;
   * otherwise ceil(L / batchSize) statements run, one per batch in order, and their rows come
   * back concatenated in batch order.
   */
  lemma ExecuteRetrieveSpec(returned: Statement -> seq<Entity>, t: EntityType, objs: seq<Entity>, batchSize: nat)
    requires batchSize > 0
    ensures objs == [] ==> Retrieve(returned, t, Batches(objs, batchSize)) == Run(Ok([]), [])
    ensures objs != [] && !Readable(t) ==>
              Retrieve(returned, t, Batches(objs, batchSize)) == Run(Err(NullReferenceException), [])
    ensures Readable(t) ==>
              var ss := RetrieveStatements(t, Chunks(objs, batchSize));
              && Retrieve(returned, t, Batches(objs, batchSize)) == Run(Ok(Flatten(Map(returned, ss))), ss)
              && |ss| == (|objs| + batchSize - 1) / batchSize
  {
    var batches := Chunks(objs, batchSize);
    ChunksCount(objs, batchSize);
    ChunksSizes(objs, batchSize);
    if Readable(t) {
      RetrieveReadable(returned, t, batches);
    } else if objs != [] {
      RetrieveUnreadable(returned, t, batches);
    }
  }
}
