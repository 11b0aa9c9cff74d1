/**
 * `BulkUpdate` / `BulkUpdateAsync`: validate the batch size (and, synchronously, that there is
 * something to update), split the objects into batches, find the statement builder registered
 * for the active provider, then build one UPDATE per batch and run it when it targets some key,
 * adding up the affected-row counts.
 */
module BulkUpdateExtensions {
  import opened Wrappers
  import opened Linq
  import opened EntityModel
  import opened CaseUpdate
  import opened ModelSelection
  import opened DatabaseFacade
  import opened QueryBuilderRegistry
  import opened SqlBulkQueryBuilder
  import BulkCreateExtensions

  /**
   * One more iteration after `prior`, building from `objs`: an earlier failure stands; a
   * statement with no ids is skipped; otherwise it runs and its reported count is recorded.
   */
  function NextUpdate(affected: Statement -> int, t: EntityType, names: seq<string>, prior: Run<seq<int>>,
                      objs: seq<Entity>): Run<seq<int>>
  {
    if prior.result.Err? then prior
    else
      match SqlUpdate(t, objs, names)
      case Err(e) => Run(Err(e), prior.log)
      case Ok(u) =>
        if u.ids == [] then prior
        else
          var s := Statement(u.text, u.parameters);
          Run(Ok(prior.result.value + [affected(s)]), prior.log + [s])
  }

  /** The loop over `inputs`, the object list each iteration builds its statement from. */
  function Updates(affected: Statement -> int, t: EntityType, names: seq<string>, inputs: seq<seq<Entity>>): Run<seq<int>>
    decreases |inputs|
  {
    if inputs == [] then Run(Ok([]), [])
    else NextUpdate(affected, t, names, Updates(affected, t, names, inputs[..|inputs| - 1]), inputs[|inputs| - 1])
  }

  /** `BulkUpdate`: the batch-size check, the emptiness check, the provider check, then one update per batch. */
  function BulkUpdateRun(affected: Statement -> int, schemes: map<string, QueryBuilderScheme>, providerName: string,
                         t: EntityType, objs: seq<Entity>, names: seq<string>, batchSize: int): Run<seq<int>>
  {
    if batchSize < 1 then Run(Err(ArgumentOutOfRangeException), [])
    else if objs == [] || names == [] then Run(Err(ArgumentException), [])
    else if providerName !in schemes then Run(Err(InvalidOperationException), [])
    else Updates(affected, t, names, Chunks(objs, batchSize))
  }

  /** `n` copies of the whole object list. */
  function Repeat(objs: seq<Entity>, n: nat): (r: seq<seq<Entity>>)
    ensures |r| == n && forall i :: 0 <= i < n ==> r[i] == objs
  {
    seq(n, i => objs)
  }

  /**
   * `BulkUpdateAsync` as written: the batch-size check and the provider check, then one
   * iteration per batch, each building its statement from the whole object list.
   */
  function BulkUpdateAsyncAsWrittenRun(affected: Statement -> int, schemes: map<string, QueryBuilderScheme>,
                                       providerName: string, t: EntityType, objs: seq<Entity>, names: seq<string>,
                                       batchSize: int): Run<seq<int>>
  {
    if batchSize < 1 then Run(Err(ArgumentOutOfRangeException), [])
    else if providerName !in schemes then Run(Err(InvalidOperationException), [])
    else Updates(affected, t, names, Repeat(objs, |Chunks(objs, batchSize)|))
  }

  /** `BulkUpdateAsync` corrected: each iteration builds its statement from its own batch. */
  function BulkUpdateAsyncRun(affected: Statement -> int, schemes: map<string, QueryBuilderScheme>, providerName: string,
                              t: EntityType, objs: seq<Entity>, names: seq<string>, batchSize: int): Run<seq<int>>
  {
    if batchSize < 1 then Run(Err(ArgumentOutOfRangeException), [])
    else if providerName !in schemes then Run(Err(InvalidOperationException), [])
    else Updates(affected, t, names, Chunks(objs, batchSize))
  }

  lemma UpdatesStep(affected: Statement -> int, t: EntityType, names: seq<string>, inputs: seq<seq<Entity>>, i: nat)
    requires i < |inputs|
    ensures Updates(affected, t, names, inputs[..i + 1])
            == NextUpdate(affected, t, names, Updates(affected, t, names, inputs[..i]), inputs[i])
  {
    assert inputs[..i + 1][..i] == inputs[..i];
  }

  /** Once an iteration fails, the later ones change nothing. */
  lemma {:induction false} UpdatesFail(affected: Statement -> int, t: EntityType, names: seq<string>,
                                       inputs: seq<seq<Entity>>, n: nat)
    requires n <= |inputs| && Updates(affected, t, names, inputs[..n]).result.Err?
    ensures Updates(affected, t, names, inputs) == Updates(affected, t, names, inputs[..n])
    decreases |inputs| - n
  {
    if n < |inputs| {
      UpdatesStep(affected, t, names, inputs, n);
      UpdatesFail(affected, t, names, inputs, n + 1);
    } else {
      assert inputs[..n] == inputs;
    }
  }

  /**
   * One iteration of the update loop: build the statement from `inputs[i]` and run it when its
   * ids are not empty. `Ok(None)` is a skipped statement, `Ok(Some(n))` one that ran.
   */
  method UpdateBatch(db: Database, t: EntityType, names: seq<string>, inputs: seq<seq<Entity>>, i: nat,
                     ghost counts: seq<int>, ghost base: seq<Statement>) returns (r: Result<Option<int>>)
    requires i < |inputs|
    requires Updates(db.affected, t, names, inputs[..i]).result == Ok(counts)
    requires db.log == base + Updates(db.affected, t, names, inputs[..i]).log
    modifies db
    ensures var next := Updates(db.affected, t, names, inputs[..i + 1]);
            && (r.Err? ==> next.result == Err(r.error))
            && (r == Ok(None) ==> next.result == Ok(counts))
            && (r.Ok? && r.value.Some? ==> next.result == Ok(counts + [r.value.value]))
            && db.log == base + next.log
  {
    UpdatesStep(db.affected, t, names, inputs, i);
    var u := CreateBulkUpdateQuery(t, inputs[i], names);
    if u.Err? {
      return Err(u.error);
    }
    if |u.value.ids| == 0 {
      return Ok(None);
    }
    var n := db.ExecuteSqlRaw(u.value.text, u.value.parameters);
    r := Ok(Some(n));
  }

  /** The update loop over `inputs`, from the running total 0 and the log as it was. */
  method RunUpdates(db: Database, t: EntityType, names: seq<string>, inputs: seq<seq<Entity>>) returns (r: Result<int>)
    modifies db
    ensures var run := Updates(db.affected, t, names, inputs);
            r == BulkCreateExtensions.Total(run.result) && db.log == old(db.log) + run.log
  {
    var affectedRows := 0;
    ghost var counts: seq<int> := [];
    var i := 0;
    assert inputs[..0] == [];
    while i < |inputs|
      invariant 0 <= i <= |inputs|
      invariant Updates(db.affected, t, names, inputs[..i]).result == Ok(counts)
      invariant db.log == old(db.log) + Updates(db.affected, t, names, inputs[..i]).log
      invariant affectedRows == Sum(counts)
    {
      var step := UpdateBatch(db, t, names, inputs, i, counts, old(db.log));
      if step.Err? {
        UpdatesFail(db.affected, t, names, inputs, i + 1);
        return Err(step.error);
      }
      if step.value.Some? {
        affectedRows := BulkCreateExtensions.AddCount(affectedRows, counts, step.value.value);
        counts := counts + [step.value.value];
      }
      i := i + 1;
    }
    assert inputs[..i] == inputs;
    r := Ok(affectedRows);
  }

  /** `BulkUpdate`: each batch's statement is built from that batch. */
  method BulkUpdate(db: Database, provider: QueryBuilderProvider, providerName: string,
                    t: EntityType, objs: seq<Entity>, names: seq<string>, batchSize: int) returns (r: Result<int>)
    modifies db
    ensures var run := BulkUpdateRun(db.affected, provider.schemes, providerName, t, objs, names, batchSize);
            r == BulkCreateExtensions.Total(run.result) && db.log == old(db.log) + run.log
  {
    if batchSize < 1 {
      return Err(ArgumentOutOfRangeException);
    }
    if |objs| == 0 || |names| == 0 {
      return Err(ArgumentException);
    }
    var batches := SplitIntoBatches(objs, batchSize);
    var builder := BulkCreateExtensions.GetSqlBulkQueryBuilder(provider, providerName);
    if builder.Err? {
      return Err(builder.error);
    }
    r := RunUpdates(db, t, names, batches);
  }

  /** `BulkUpdateAsync` as written: every iteration builds its statement from the whole object list. */
  method BulkUpdateAsyncAsWritten(db: Database, provider: QueryBuilderProvider, providerName: string,
                                  t: EntityType, objs: seq<Entity>, names: seq<string>, batchSize: int)
    returns (r: Result<int>)
    modifies db
    ensures var run := BulkUpdateAsyncAsWrittenRun(db.affected, provider.schemes, providerName, t, objs, names, batchSize);
            r == BulkCreateExtensions.Total(run.result) && db.log == old(db.log) + run.log
  {
    if batchSize < 1 {
      return Err(ArgumentOutOfRangeException);
    }
    var batches := SplitIntoBatches(objs, batchSize);
    var builder := BulkCreateExtensions.GetSqlBulkQueryBuilder(provider, providerName);
    if builder.Err? {
      return Err(builder.error);
    }
    r := RunUpdates(db, t, names, Repeat(objs, |batches|));
  }

  /** `BulkUpdateAsync` corrected: each batch's statement is built from that batch. */
  method BulkUpdateAsync(db: Database, provider: QueryBuilderProvider, providerName: string,
                         t: EntityType, objs: seq<Entity>, names: seq<string>, batchSize: int) returns (r: Result<int>)
    modifies db
    ensures var run := BulkUpdateAsyncRun(db.affected, provider.schemes, providerName, t, objs, names, batchSize);
            r == BulkCreateExtensions.Total(run.result) && db.log == old(db.log) + run.log
  {
    if batchSize < 1 {
      return Err(ArgumentOutOfRangeException);
    }
    var batches := SplitIntoBatches(objs, batchSize);
    var builder := BulkCreateExtensions.GetSqlBulkQueryBuilder(provider, providerName);
    if builder.Err? {
      return Err(builder.error);
    }
    r := RunUpdates(db, t, names, batches);
  }

  // ----- Properties -----

  /** The statements the loop runs over `inputs`: one per iteration whose statement builds and has ids. */
  function UpdateStatements(t: EntityType, names: seq<string>, inputs: seq<seq<Entity>>): seq<Statement>
    decreases |inputs|
  {
    if inputs == [] then []
    else
      UpdateStatements(t, names, inputs[..|inputs| - 1])
        + match SqlUpdate(t, inputs[|inputs| - 1], names)
          case Ok(u) => if u.ids == [] then [] else [Statement(u.text, u.parameters)]
          case Err(_) => []
  }

  /**
   * When every iteration's statement builds, the loop runs exactly the statements with ids, in
   * order, and records the counts the engine reports for them.
   */
  lemma {:induction false} UpdatesOk(affected: Statement -> int, t: EntityType, names: seq<string>, inputs: seq<seq<Entity>>)
    requires forall i :: 0 <= i < |inputs| ==> SqlUpdate(t, inputs[i], names).Ok?
    ensures var ss := UpdateStatements(t, names, inputs);
            Updates(affected, t, names, inputs) == Run(Ok(Map(affected, ss)), ss)
    decreases |inputs|
  {
    if inputs != [] {
      var prior := inputs[..|inputs| - 1];
      var last := inputs[|inputs| - 1];
      assert forall i :: 0 <= i < |prior| ==> SqlUpdate(t, prior[i], names).Ok? by {
        assert forall i :: 0 <= i < |prior| ==> prior[i] == inputs[i];
      }
      UpdatesOk(affected, t, names, prior);
      var ss := UpdateStatements(t, names, prior);
      var u := SqlUpdate(t, last, names).value;
      var s := Statement(u.text, u.parameters);
      if u.ids == [] {
        assert UpdateStatements(t, names, inputs) == ss + [] == ss;
        assert Updates(affected, t, names, inputs) == Updates(affected, t, names, prior);
      } else {
        assert UpdateStatements(t, names, inputs) == ss + [s];
        MapSnoc(affected, ss, s);
      }
    }
  }

  /**
   * The first iteration whose statement cannot be built decides the exception; the statements
   * of the iterations before it have already run.
   */
  lemma UpdatesFirstFailure(affected: Statement -> int, t: EntityType, names: seq<string>, inputs: seq<seq<Entity>>, k: nat)
    requires k < |inputs| && SqlUpdate(t, inputs[k], names).Err?
    requires forall i :: 0 <= i < k ==> SqlUpdate(t, inputs[i], names).Ok?
    ensures Updates(affected, t, names, inputs)
            == Run(Err(SqlUpdate(t, inputs[k], names).error), UpdateStatements(t, names, inputs[..k]))
  {
    assert forall i :: 0 <= i < k ==> SqlUpdate(t, inputs[..k][i], names).Ok? by {
      assert forall i :: 0 <= i < k ==> inputs[..k][i] == inputs[i];
    }
    UpdatesOk(affected, t, names, inputs[..k]);
    UpdatesStep(affected, t, names, inputs, k);
    UpdatesFail(affected, t, names, inputs, k + 1);
  }

  /** A batch's statement is skipped exactly when none of its objects modified a requested property. */
  lemma SkipIff(t: EntityType, batch: seq<Entity>, names: seq<string>)
    requires SqlUpdate(t, batch, names).Ok?
    ensures SqlUpdate(t, batch, names).value.ids == [] <==> forall i :: 0 <= i < |names| ==> Modified(batch, names[i]) == []
  {
    SqlUpdateSpec(t, batch, names);
    ColumnKeysEmpty(t.primaryKey.name, batch, names);
  }

  /**
   * `BulkUpdate`: a batch size below 1 throws first; then empty objects or properties throw;
   * then an unregistered provider throws; otherwise one statement per batch is built from that
   * batch, and when all build, exactly those with ids run, in batch order.
   */
  lemma BulkUpdateSpec(affected: Statement -> int, schemes: map<string, QueryBuilderScheme>, providerName: string,
                       t: EntityType, objs: seq<Entity>, names: seq<string>, batchSize: int)
    ensures batchSize < 1 ==>
              BulkUpdateRun(affected, schemes, providerName, t, objs, names, batchSize) == Run(Err(ArgumentOutOfRangeException), [])
    ensures batchSize >= 1 && (objs == [] || names == []) ==>
              BulkUpdateRun(affected, schemes, providerName, t, objs, names, batchSize) == Run(Err(ArgumentException), [])
    ensures batchSize >= 1 && objs != [] && names != [] && providerName !in schemes ==>
              BulkUpdateRun(affected, schemes, providerName, t, objs, names, batchSize) == Run(Err(InvalidOperationException), [])
    ensures batchSize >= 1 && objs != [] && names != [] && providerName in schemes
            && (forall b :: b in Chunks(objs, batchSize) ==> SqlUpdate(t, b, names).Ok?) ==>
              var ss := UpdateStatements(t, names, Chunks(objs, batchSize));
              BulkUpdateRun(affected, schemes, providerName, t, objs, names, batchSize) == Run(Ok(Map(affected, ss)), ss)
  {
    if batchSize >= 1 && objs != [] && names != [] && providerName in schemes
       && (forall b :: b in Chunks(objs, batchSize) ==> SqlUpdate(t, b, names).Ok?) {
      UpdatesOk(affected, t, names, Chunks(objs, batchSize));
    }
  }

  // ----- The asynchronous variant -----

  /** Repeating a statement that has ids: it runs once per iteration. */
  lemma {:induction false} RepeatRun(affected: Statement -> int, t: EntityType, names: seq<string>, objs: seq<Entity>, m: nat)
    requires SqlUpdate(t, objs, names).Ok? && SqlUpdate(t, objs, names).value.ids != []
    ensures var u := SqlUpdate(t, objs, names).value;
            var s := Statement(u.text, u.parameters);
            Updates(affected, t, names, Repeat(objs, m)) == Run(Ok(seq(m, i => affected(s))), seq(m, i => s))
    decreases m
  {
    var u := SqlUpdate(t, objs, names).value;
    var s := Statement(u.text, u.parameters);
    if m > 0 {
      RepeatRun(affected, t, names, objs, m - 1);
      var before := Updates(affected, t, names, Repeat(objs, m - 1));
      assert Updates(affected, t, names, Repeat(objs, m)) == NextUpdate(affected, t, names, before, objs) by {
        assert Repeat(objs, m)[..m - 1] == Repeat(objs, m - 1);
      }
      assert seq(m, i => affected(s)) == seq(m - 1, i => affected(s)) + [affected(s)];
      assert seq(m, i => s) == seq(m - 1, i => s) + [s];
    }
  }

  /**
   * As written, the asynchronous update runs the statement built from the whole object list once
   * per batch: with more objects than the batch size and some modified property, the same
   * statement runs at least twice.
   */
  lemma AsyncAsWrittenRepeats(affected: Statement -> int, schemes: map<string, QueryBuilderScheme>, providerName: string,
                              t: EntityType, objs: seq<Entity>, names: seq<string>, batchSize: int)
    requires 1 <= batchSize < |objs| && providerName in schemes
    requires SqlUpdate(t, objs, names).Ok? && SqlUpdate(t, objs, names).value.ids != []
    ensures var u := SqlUpdate(t, objs, names).value;
            var s := Statement(u.text, u.parameters);
            var run := BulkUpdateAsyncAsWrittenRun(affected, schemes, providerName, t, objs, names, batchSize);
            && |run.log| == |Chunks(objs, batchSize)| >= 2
            && forall i :: 0 <= i < |run.log| ==> run.log[i] == s
  {
    assert Chunks(objs, batchSize) == [objs[..batchSize]] + Chunks(objs[batchSize..], batchSize);
    ChunksCount(objs[batchSize..], batchSize);
    RepeatRun(affected, t, names, objs, |Chunks(objs, batchSize)|);
  }

  /** With no properties requested every statement has no ids, so nothing runs. */
  lemma {:induction false} UpdatesNoNames(affected: Statement -> int, t: EntityType, inputs: seq<seq<Entity>>)
    ensures Updates(affected, t, [], inputs) == Run(Ok([]), [])
    decreases |inputs|
  {
    if inputs != [] {
      UpdatesNoNames(affected, t, inputs[..|inputs| - 1]);
    }
  }

  /**
   * The corrected asynchronous update builds each statement from its own batch: wherever the
   * synchronous update proceeds it behaves the same, and where the synchronous one rejects an
   * empty object or property list it runs nothing and returns 0.
   */
  lemma AsyncMatchesSync(affected: Statement -> int, schemes: map<string, QueryBuilderScheme>, providerName: string,
                         t: EntityType, objs: seq<Entity>, names: seq<string>, batchSize: int)
    ensures objs != [] && names != [] ==>
              BulkUpdateAsyncRun(affected, schemes, providerName, t, objs, names, batchSize)
              == BulkUpdateRun(affected, schemes, providerName, t, objs, names, batchSize)
    ensures batchSize >= 1 && providerName in schemes && (objs == [] || names == []) ==>
              BulkUpdateAsyncRun(affected, schemes, providerName, t, objs, names, batchSize) == Run(Ok([]), [])
  {
    if batchSize >= 1 && providerName in schemes {
      if objs == [] {
        ChunksCount(objs, batchSize);
      } else if names == [] {
        UpdatesNoNames(affected, t, Chunks(objs, batchSize));
      }
    }
  }
}
