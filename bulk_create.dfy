/**
 * `BulkCreate` / `BulkCreateAsync`: validate the batch size, split the objects into batches, find
 * the statement builder registered for the active provider, then build and run one INSERT per
 * batch, in batch order, adding up the affected-row counts.
 */
module BulkCreateExtensions {
  import opened Wrappers
  import opened Linq
  import opened EntityModel
  import opened ValueRows
  import opened BulkInsert
  import opened ModelSelection
  import opened DatabaseFacade
  import opened QueryBuilderRegistry
  import SqlBulkQueryBuilder

  /** `GetSqlBulkQueryBuilder`: the builder registered for the provider name; none is an InvalidOperationException. */
  method GetSqlBulkQueryBuilder(provider: QueryBuilderProvider, providerName: string) returns (r: Result<QueryBuilderType>)
    ensures providerName !in provider.schemes ==> r == Err(InvalidOperationException)
    ensures providerName in provider.schemes ==> r == Ok(provider.schemes[providerName].queryBuilderType)
  {
    var builder := provider.GetQueryBuilder(providerName);
    if builder.None? {
      return Err(InvalidOperationException);
    }
    r := Ok(builder.value);
  }

  /**
   * One more batch after `prior`: an earlier failure stands; otherwise the batch's INSERT runs
   * and the count the engine reports for it is recorded.
   */
  function NextInsert(affected: Statement -> int, t: EntityType, prior: Run<seq<int>>, batch: seq<Entity>): Run<seq<int>>
  {
    if prior.result.Err? then prior
    else
      match ColumnInsert(t, batch)
      case Err(e) => Run(Err(e), prior.log)
      case Ok(q) =>
        var s := Statement(q.text, q.parameters);
        Run(Ok(prior.result.value + [affected(s)]), prior.log + [s])
  }

  /**
   * The inserts over `batches`, batch after batch: the per-statement counts and the statements
   * run; the first batch whose statement cannot be built stops the run.
   */
  function Inserts(affected: Statement -> int, t: EntityType, batches: seq<seq<Entity>>): Run<seq<int>>
    decreases |batches|
  {
    if batches == [] then Run(Ok([]), [])
    else NextInsert(affected, t, Inserts(affected, t, batches[..|batches| - 1]), batches[|batches| - 1])
  }

  /** The value a bulk call returns: the sum of the reported counts, or the exception. */
  function Total(counts: Result<seq<int>>): Result<int>
  {
    match counts
    case Ok(ns) => Ok(Sum(ns))
    case Err(e) => Err(e)
  }

  /** The whole call: the batch-size check, then the provider check, then the inserts. */
  function BulkCreateRun(affected: Statement -> int, schemes: map<string, QueryBuilderScheme>, providerName: string,
                         t: EntityType, objs: seq<Entity>, batchSize: int): Run<seq<int>>
  {
    if batchSize <= 0 then Run(Err(ArgumentOutOfRangeException), [])
    else if providerName !in schemes then Run(Err(InvalidOperationException), [])
    else Inserts(affected, t, Chunks(objs, batchSize))
  }

  lemma InsertsStep(affected: Statement -> int, t: EntityType, batches: seq<seq<Entity>>, i: nat)
    requires i < |batches|
    ensures Inserts(affected, t, batches[..i + 1]) == NextInsert(affected, t, Inserts(affected, t, batches[..i]), batches[i])
  {
    assert batches[..i + 1][..i] == batches[..i];
  }

  /** Once a batch fails, the later batches change nothing. */
  lemma {:induction false} InsertsFail(affected: Statement -> int, t: EntityType, batches: seq<seq<Entity>>, n: nat)
    requires n <= |batches| && Inserts(affected, t, batches[..n]).result.Err?
    ensures Inserts(affected, t, batches) == Inserts(affected, t, batches[..n])
    decreases |batches| - n
  {
    if n < |batches| {
      InsertsStep(affected, t, batches, n);
      InsertsFail(affected, t, batches, n + 1);
    } else {
      assert batches[..n] == batches;
    }
  }

  /** `affectedRows += n`, for a running total that is the sum of the counts so far. */
  method AddCount(total: int, ghost counts: seq<int>, n: int) returns (sum: int)
    requires total == Sum(counts)
    ensures sum == Sum(counts + [n])
  {
    SumSnoc(counts, n);
    sum := total + n;
  }

  /** One iteration of the insert loop: build batch i's INSERT and, when it builds, run it. */
  method InsertBatch(db: Database, t: EntityType, batches: seq<seq<Entity>>, i: nat,
                     ghost counts: seq<int>, ghost base: seq<Statement>) returns (r: Result<int>)
    requires |t.properties| > 0 && i < |batches|
    requires Inserts(db.affected, t, batches[..i]).result == Ok(counts)
    requires db.log == base + Inserts(db.affected, t, batches[..i]).log
    modifies db
    ensures var next := Inserts(db.affected, t, batches[..i + 1]);
            && (r.Err? ==> next.result == Err(r.error))
            && (r.Ok? ==> next.result == Ok(counts + [r.value]))
            && db.log == base + next.log
  {
    ghost var prior := Inserts(db.affected, t, batches[..i]);
    InsertsStep(db.affected, t, batches, i);
    var q := SqlBulkQueryBuilder.CreateBulkInsertQuery(t, batches[i]);
    if q.Err? {
      return Err(q.error);
    }
    ghost var s := Statement(q.value.text, q.value.parameters);
    var n := db.ExecuteSqlRaw(q.value.text, q.value.parameters);
    AppendAssoc(base, prior.log, [s]);
    r := Ok(n);
  }

  /** `BulkCreate` / `BulkCreateAsync`. */
  method BulkCreate(db: Database, provider: QueryBuilderProvider, providerName: string,
                    t: EntityType, objs: seq<Entity>, batchSize: int) returns (r: Result<int>)
    requires |t.properties| > 0
    modifies db
    ensures var run := BulkCreateRun(db.affected, provider.schemes, providerName, t, objs, batchSize);
            r == Total(run.result) && db.log == old(db.log) + run.log
  {
    if batchSize <= 0 {
      return Err(ArgumentOutOfRangeException);
    }
    var batches := SplitIntoBatches(objs, batchSize);
    var builder := GetSqlBulkQueryBuilder(provider, providerName);
    if builder.Err? {
      return Err(builder.error);
    }
    var affectedRows := 0;
    ghost var counts: seq<int> := [];
    var i := 0;
    assert batches[..0] == [];
    while i < |batches|
      invariant 0 <= i <= |batches|
      invariant Inserts(db.affected, t, batches[..i]).result == Ok(counts)
      invariant db.log == old(db.log) + Inserts(db.affected, t, batches[..i]).log
      invariant affectedRows == Sum(counts)
    {
      var step := InsertBatch(db, t, batches, i, counts, old(db.log));
      if step.Err? {
        InsertsFail(db.affected, t, batches, i + 1);
        return Err(step.error);
      }
      affectedRows := AddCount(affectedRows, counts, step.value);
      counts := counts + [step.value];
      i := i + 1;
    }
    assert batches[..i] == batches;
    r := Ok(affectedRows);
  }

  // ----- Properties -----

  /** The statement a readable, non-empty batch sends. */
  function InsertStatement(t: EntityType, batch: seq<Entity>): Statement
  {
    Statement(InsertText(ColumnHeader(t), t.properties, batch), BatchParams(t.properties, batch))
  }

  /** A readable, non-empty batch builds exactly that statement. */
  lemma InsertBuilt(t: EntityType, batch: seq<Entity>)
    requires Readable(t) && batch != []
    ensures var s := InsertStatement(t, batch); ColumnInsert(t, batch) == Ok(Query(s.text, s.parameters))
  {
  }

  /** One statement per batch, each built from that batch alone, in batch order. */
  function InsertStatements(t: EntityType, batches: seq<seq<Entity>>): (r: seq<Statement>)
    ensures |r| == |batches|
  {
    Map((b: seq<Entity>) => InsertStatement(t, b), batches)
  }

  /**
   * With every property readable and no empty batch, every batch runs: the log is one statement
   * per batch in order, and the counts are those the engine reports for them, in that order.
   */
  lemma {:induction false} InsertsReadable(affected: Statement -> int, t: EntityType, batches: seq<seq<Entity>>)
    requires Readable(t)
    requires forall i :: 0 <= i < |batches| ==> batches[i] != []
    ensures var ss := InsertStatements(t, batches);
            Inserts(affected, t, batches) == Run(Ok(Map(affected, ss)), ss)
    decreases |batches|
  {
    if batches != [] {
      var prior := batches[..|batches| - 1];
      assert forall i :: 0 <= i < |prior| ==> prior[i] != [] by {
        assert forall i :: 0 <= i < |prior| ==> prior[i] == batches[i];
      }
      InsertsReadable(affected, t, prior);
      InsertsReadableStep(affected, t, batches);
    }
  }

  /** One more readable batch appends its statement and its count. */
  lemma InsertsReadableStep(affected: Statement -> int, t: EntityType, batches: seq<seq<Entity>>)
    requires Readable(t) && batches != [] && batches[|batches| - 1] != []
    requires var ss := InsertStatements(t, batches[..|batches| - 1]);
             Inserts(affected, t, batches[..|batches| - 1]) == Run(Ok(Map(affected, ss)), ss)
    ensures var ss := InsertStatements(t, batches);
            Inserts(affected, t, batches) == Run(Ok(Map(affected, ss)), ss)
  {
    var prior := batches[..|batches| - 1];
    var last := batches[|batches| - 1];
    var ss := InsertStatements(t, prior);
    var s := InsertStatement(t, last);
    InsertBuilt(t, last);
    assert Inserts(affected, t, batches) == Run(Ok(Map(affected, ss) + [affected(s)]), ss + [s]);
    assert InsertStatements(t, batches) == ss + [s];
    MapSnoc(affected, ss, s);
  }

  /** With some property unreadable, the first batch fails and nothing runs. */
  lemma {:induction false} InsertsUnreadable(affected: Statement -> int, t: EntityType, batches: seq<seq<Entity>>)
    requires !Readable(t) && batches != [] && batches[0] != []
    ensures Inserts(affected, t, batches) == Run(Err(NullReferenceException), [])
    decreases |batches|
  {
    if |batches| > 1 {
      InsertsUnreadable(affected, t, batches[..|batches| - 1]);
    }
  }

  /**
   * The whole call: a batch size of 0 or less throws first; then an unregistered provider
   * throws; no objects run nothing and return 0; an unreadable property throws before any
   * statement runs; otherwise one INSERT per batch runs, batch i's built from batch i alone,
   * ceil(L / batchSize) of them, and the call returns the sum of their counts.
   */
  lemma BulkCreateSpec(affected: Statement -> int, schemes: map<string, QueryBuilderScheme>, providerName: string,
                       t: EntityType, objs: seq<Entity>, batchSize: int)
    ensures batchSize <= 0 ==>
              BulkCreateRun(affected, schemes, providerName, t, objs, batchSize) == Run(Err(ArgumentOutOfRangeException), [])
    ensures batchSize > 0 && providerName !in schemes ==>
              BulkCreateRun(affected, schemes, providerName, t, objs, batchSize) == Run(Err(InvalidOperationException), [])
    ensures batchSize > 0 && providerName in schemes && objs == [] ==>
              var run := BulkCreateRun(affected, schemes, providerName, t, objs, batchSize);
              run == Run(Ok([]), []) && Total(run.result) == Ok(0)
    ensures batchSize > 0 && providerName in schemes && objs != [] && !Readable(t) ==>
              BulkCreateRun(affected, schemes, providerName, t, objs, batchSize) == Run(Err(NullReferenceException), [])
    ensures batchSize > 0 && providerName in schemes && Readable(t) ==>
              var batches := Chunks(objs, batchSize);
              var ss := InsertStatements(t, batches);
              var run := BulkCreateRun(affected, schemes, providerName, t, objs, batchSize);
              && run == Run(Ok(Map(affected, ss)), ss)
              && Total(run.result) == Ok(Sum(Map(affected, ss)))
              && |ss| == (|objs| + batchSize - 1) / batchSize
              && (forall i :: 0 <= i < |ss| ==> ss[i] == InsertStatement(t, batches[i]))
  {
    if batchSize > 0 && providerName in schemes {
      var batches := Chunks(objs, batchSize);
      ChunksCount(objs, batchSize);
      ChunksSizes(objs, batchSize);
      if Readable(t) {
        InsertsReadable(affected, t, batches);
        var f := (b: seq<Entity>) => InsertStatement(t, b);
        forall i | 0 <= i < |batches|
          ensures InsertStatements(t, batches)[i] == InsertStatement(t, batches[i])
        {
          MapAt(f, batches, i);
        }
      } else if objs != [] {
        InsertsUnreadable(affected, t, batches);
      }
    }
  }
}
