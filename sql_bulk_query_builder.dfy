/**
 * The current statement builder. Its INSERT names the mapped columns; its UPDATE is column-major:
 *   UPDATE <table> SET <name> = CASE WHEN <pk> = <key> THEN NULL|{k} ... ELSE <name> END, ...
 *     WHERE <pk> IN (<distinct keys>)
 * where, for each requested name, only the objects whose change-tracking entry marks that name
 * modified contribute a WHEN, a name with no such object contributes no clause, and `ids` is a
 * set of the keys that contributed.
 */
module SqlBulkQueryBuilder {
  import opened Wrappers
  import opened SqlText
  import opened EntityModel
  import opened Placeholders
  import opened Linq
  import opened ValueRows
  import opened BulkInsert
  import opened CaseUpdate

  // ----- INSERT -----

  /** `CreateBulkInsertQuery`: the header names the mapped columns. */
  method CreateBulkInsertQuery(t: EntityType, objs: seq<Entity>) returns (r: Result<Query>)
    requires |t.properties| > 0
    ensures r == ColumnInsert(t, objs)
  {
    if |objs| == 0 {
      return Err(ArgumentException);
    }
    var header := InsertHeader(t.tableName, ColumnNames(t.properties));
    r := BuildValues(header, t, objs);
  }

  // ----- UPDATE: specification -----

  /** The objects whose entry marks `name` modified, in input order. */
  function Modified(objs: seq<Entity>, name: string): (r: seq<Entity>)
    ensures |r| <= |objs|
    decreases |objs|
  {
    if objs == [] then []
    else
      var o := objs[|objs| - 1];
      Modified(objs[..|objs| - 1], name) + (if name in o.modified then [o] else [])
  }

  /** One cell per modified object: its value for `name`, bound unless null. */
  function ColumnCells(mods: seq<Entity>, name: string): (r: seq<Cell>)
    ensures |r| == |mods|
    decreases |mods|
  {
    if mods == [] then []
    else
      var v := ValueOf(mods[|mods| - 1], name);
      ColumnCells(mods[..|mods| - 1], name) + [Cell(v, v != VNull)]
  }

  /** The WHEN fragments of one column: one per key, with its slot. */
  function ColumnText(pk: string, keys: seq<string>, slots: seq<Slot>): string
    requires |keys| == |slots|
    decreases |keys|
  {
    if keys == [] then ""
    else ColumnText(pk, keys[..|keys| - 1], slots[..|slots| - 1]) + WhenText(pk, keys[|keys| - 1], slots[|slots| - 1])
  }

  /** Every modified object's key can be read: the key has a CLR property and no such key is null. */
  predicate KeysReadable(t: EntityType, pk: string, mods: seq<Entity>)
  {
    mods == [] || (pk in t.clrProperties && forall j :: 0 <= j < |mods| ==> ValueOf(mods[j], pk) != VNull)
  }

  /** What one requested column contributes: its WHEN text, its parameters and the keys it touched. */
  datatype Column = Column(whens: string, params: seq<Value>, keys: seq<string>)

  /** One requested column, its placeholders numbered from `start`. */
  function ColumnOf(t: EntityType, pk: string, objs: seq<Entity>, name: string, start: nat): Result<Column>
  {
    var mods := Modified(objs, name);
    if name !in t.clrProperties then Err(ArgumentException)
    else if !KeysReadable(t, pk, mods) then Err(NullReferenceException)
    else Ok(Column(ColumnText(pk, Keys(pk, mods), NumberFrom(ColumnCells(mods, name), start)),
                   Bound(ColumnCells(mods, name)), Keys(pk, mods)))
  }

  /** `HashSet.Add` for each key in turn: a key already present is not added again. */
  function AddIds(ids: seq<string>, keys: seq<string>): seq<string>
    decreases |keys|
  {
    if keys == [] then ids
    else
      var s := AddIds(ids, keys[..|keys| - 1]);
      var k := keys[|keys| - 1];
      if k in s then s else s + [k]
  }

  /** The SET clauses, parameters and ids after some of the requested columns. */
  datatype Built = Built(clauses: seq<string>, params: seq<Value>, ids: seq<string>)

  /** One more requested column after `prior`; an earlier failure stands. */
  function NextColumn(t: EntityType, pk: string, objs: seq<Entity>, prior: Result<Built>, name: string): Result<Built>
  {
    match prior
    case Err(e) => Err(e)
    case Ok(b) =>
      match ColumnOf(t, pk, objs, name, |b.params|)
      case Err(e) => Err(e)
      case Ok(col) =>
        Ok(Built(b.clauses + (if col.whens == "" then [] else [Clause(name, col.whens)]),
                 b.params + col.params, AddIds(b.ids, col.keys)))
  }

  /** The requested columns in order; the first failing column decides the exception. */
  function Columns(t: EntityType, pk: string, objs: seq<Entity>, names: seq<string>): Result<Built>
    decreases |names|
  {
    if names == [] then Ok(Built([], [], []))
    else NextColumn(t, pk, objs, Columns(t, pk, objs, names[..|names| - 1]), names[|names| - 1])
  }

  /** The outcome of `CreateBulkUpdateQuery`; the key is named by its property name. */
  function SqlUpdate(t: EntityType, objs: seq<Entity>, names: seq<string>): Result<UpdateQuery>
  {
    var pk := t.primaryKey.name;
    match Columns(t, pk, objs, names)
    case Err(e) => Err(e)
    case Ok(b) => Ok(UpdateQuery(UpdateText(t.tableName, pk, b.clauses, b.ids), b.params, b.ids))
  }

  // ----- Step lemmas -----

  lemma ModifiedStep(objs: seq<Entity>, name: string, j: nat)
    requires j < |objs|
    ensures Modified(objs[..j + 1], name) == Modified(objs[..j], name) + (if name in objs[j].modified then [objs[j]] else [])
  {
    assert objs[..j + 1][..j] == objs[..j];
  }

  lemma CellsSnoc(mods: seq<Entity>, o: Entity, name: string, start: nat)
    ensures var cells := ColumnCells(mods, name);
            var v := ValueOf(o, name);
            && ColumnCells(mods + [o], name) == cells + [Cell(v, v != VNull)]
            && Bound(ColumnCells(mods + [o], name)) == Bound(cells) + (if v != VNull then [v] else [])
            && NumberFrom(ColumnCells(mods + [o], name), start)
               == NumberFrom(cells, start) + [if v != VNull then ParamSlot(start + |Bound(cells)|) else NullSlot]
  {
    var cells := ColumnCells(mods, name);
    var v := ValueOf(o, name);
    assert (mods + [o])[..|mods|] == mods;
    assert (cells + [Cell(v, v != VNull)])[..|cells|] == cells;
  }

  lemma KeysSnoc(pk: string, mods: seq<Entity>, o: Entity)
    ensures Keys(pk, mods + [o]) == Keys(pk, mods) + [Render(ValueOf(o, pk))]
  {
    assert (mods + [o])[..|mods|] == mods;
  }

  lemma TextSnoc(pk: string, keys: seq<string>, slots: seq<Slot>, k: string, s: Slot)
    requires |keys| == |slots|
    ensures ColumnText(pk, keys + [k], slots + [s]) == ColumnText(pk, keys, slots) + WhenText(pk, k, s)
  {
    assert (keys + [k])[..|keys|] == keys;
    assert (slots + [s])[..|slots|] == slots;
  }

  lemma IdsSnoc(ids: seq<string>, keys: seq<string>, k: string)
    ensures AddIds(ids, keys + [k]) == var s := AddIds(ids, keys); if k in s then s else s + [k]
  {
    assert (keys + [k])[..|keys|] == keys;
  }

  /**
   * The inner loop's state after the modified objects `mods`: their keys were readable, and the
   * WHEN text, the parameters (after `base`) and the ids (after `ids0`) are theirs.
   */
  predicate ColumnSoFar(t: EntityType, pk: string, name: string, mods: seq<Entity>, base: seq<Value>,
                        ids0: seq<string>, whens: string, params: seq<Value>, ids: seq<string>)
  {
    && KeysReadable(t, pk, mods)
    && whens == ColumnText(pk, Keys(pk, mods), NumberFrom(ColumnCells(mods, name), |base|))
    && params == base + Bound(ColumnCells(mods, name))
    && ids == AddIds(ids0, Keys(pk, mods))
  }

  /** One more modified object with a readable key: one WHEN, a parameter unless null, its key offered to `ids`. */
  lemma ColumnStep(t: EntityType, pk: string, name: string, mods: seq<Entity>, o: Entity, base: seq<Value>,
                   ids0: seq<string>, whens: string, params: seq<Value>, ids: seq<string>)
    requires ColumnSoFar(t, pk, name, mods, base, ids0, whens, params, ids)
    requires pk in t.clrProperties && ValueOf(o, pk) != VNull
    ensures var v := ValueOf(o, name);
            var key := Render(ValueOf(o, pk));
            ColumnSoFar(t, pk, name, mods + [o], base, ids0,
                        whens + WhenText(pk, key, if v != VNull then ParamSlot(|params|) else NullSlot),
                        params + (if v != VNull then [v] else []),
                        if key in ids then ids else ids + [key])
  {
    var v := ValueOf(o, name);
    var key := Render(ValueOf(o, pk));
    var mods' := mods + [o];
    ReadableSnoc(t, pk, mods, o);
    WhensSnoc(pk, name, mods, o, base, params);
    assert ColumnText(pk, Keys(pk, mods'), NumberFrom(ColumnCells(mods', name), |base|))
        == whens + WhenText(pk, key, if v != VNull then ParamSlot(|params|) else NullSlot);
    BoundSnoc(mods, o, name);
    AppendAssoc(base, Bound(ColumnCells(mods, name)), if v != VNull then [v] else []);
    assert base + Bound(ColumnCells(mods', name)) == params + (if v != VNull then [v] else []);
    KeysSnoc(pk, mods, o);
    IdsSnoc(ids0, Keys(pk, mods), key);
    assert AddIds(ids0, Keys(pk, mods')) == if key in ids then ids else ids + [key];
  }

  lemma BoundSnoc(mods: seq<Entity>, o: Entity, name: string)
    ensures var v := ValueOf(o, name);
            Bound(ColumnCells(mods + [o], name)) == Bound(ColumnCells(mods, name)) + (if v != VNull then [v] else [])
  {
    CellsSnoc(mods, o, name, 0);
  }

  lemma ReadableSnoc(t: EntityType, pk: string, mods: seq<Entity>, o: Entity)
    requires KeysReadable(t, pk, mods) && pk in t.clrProperties && ValueOf(o, pk) != VNull
    ensures KeysReadable(t, pk, mods + [o])
  {
    assert forall j :: 0 <= j < |mods| ==> (mods + [o])[j] == mods[j];
  }

  lemma WhensSnoc(pk: string, name: string, mods: seq<Entity>, o: Entity, base: seq<Value>, params: seq<Value>)
    requires params == base + Bound(ColumnCells(mods, name))
    ensures var v := ValueOf(o, name);
            ColumnText(pk, Keys(pk, mods + [o]), NumberFrom(ColumnCells(mods + [o], name), |base|))
            == ColumnText(pk, Keys(pk, mods), NumberFrom(ColumnCells(mods, name), |base|))
               + WhenText(pk, Render(ValueOf(o, pk)), if v != VNull then ParamSlot(|params|) else NullSlot)
  {
    var v := ValueOf(o, name);
    var slot := if v != VNull then ParamSlot(|params|) else NullSlot;
    var keys := Keys(pk, mods);
    var slots := NumberFrom(ColumnCells(mods, name), |base|);
    var k := Render(ValueOf(o, pk));
    SlotsSnoc(mods, o, name, base, params);
    KeysSnoc(pk, mods, o);
    TextSnoc(pk, keys, slots, k, slot);
  }

  lemma SlotsSnoc(mods: seq<Entity>, o: Entity, name: string, base: seq<Value>, params: seq<Value>)
    requires params == base + Bound(ColumnCells(mods, name))
    ensures var v := ValueOf(o, name);
            NumberFrom(ColumnCells(mods + [o], name), |base|)
            == NumberFrom(ColumnCells(mods, name), |base|) + [if v != VNull then ParamSlot(|params|) else NullSlot]
  {
    var cells := ColumnCells(mods, name);
    var v := ValueOf(o, name);
    CellsSnoc(mods, o, name, |base|);
    assert |params| == |base| + |Bound(cells)|;
    assert NumberFrom(ColumnCells(mods + [o], name), |base|)
        == NumberFrom(cells, |base|) + [if v != VNull then ParamSlot(|base| + |Bound(cells)|) else NullSlot];
  }

  /** A prefix of objects whose keys are readable leaves the rest to decide. */
  lemma KeysReadablePrefix(t: EntityType, pk: string, a: seq<Entity>, b: seq<Entity>)
    requires KeysReadable(t, pk, a + b)
    ensures KeysReadable(t, pk, a)
  {
    assert forall j :: 0 <= j < |a| ==> (a + b)[j] == a[j];
  }

  lemma ColumnsStep(t: EntityType, pk: string, objs: seq<Entity>, names: seq<string>, i: nat)
    requires i < |names|
    ensures Columns(t, pk, objs, names[..i + 1]) == NextColumn(t, pk, objs, Columns(t, pk, objs, names[..i]), names[i])
  {
    assert names[..i + 1][..i] == names[..i];
  }

  /** Splitting the objects splits the modified ones the same way. */
  lemma {:induction false} ModifiedAppend(a: seq<Entity>, b: seq<Entity>, name: string)
    ensures Modified(a + b, name) == Modified(a, name) + Modified(b, name)
    decreases |b|
  {
    if b == [] {
      assert a + b == a;
    } else {
      var b' := b[..|b| - 1];
      var last := b[|b| - 1];
      assert a + b == (a + b') + [last];
      assert ((a + b') + [last])[..|a + b'|] == a + b';
      ModifiedAppend(a, b', name);
    }
  }

  // ----- UPDATE: the builder -----

  /**
   * One object of the inner loop: skipped unless its entry marks `name` modified; otherwise its
   * key is read (no CLR key property, or a null key, throws), its WHEN appended, its value bound
   * unless null, and its key added to `ids`.
   */
  method AppendModified(t: EntityType, pk: string, name: string, objs: seq<Entity>, j: nat,
                        ghost base: seq<Value>, ghost ids0: seq<string>,
                        whens: string, params: seq<Value>, paramIndex: nat, ids: seq<string>)
    returns (r: Result<(string, seq<Value>, nat, seq<string>)>)
    requires j < |objs| && paramIndex == |params|
    requires ColumnSoFar(t, pk, name, Modified(objs[..j], name), base, ids0, whens, params, ids)
    ensures r.Err? <==> !KeysReadable(t, pk, Modified(objs[..j + 1], name))
    ensures r.Err? ==> r.error == NullReferenceException
    ensures r.Ok? ==> ColumnSoFar(t, pk, name, Modified(objs[..j + 1], name), base, ids0, r.value.0, r.value.1, r.value.3)
                      && r.value.2 == |r.value.1|
  {
    var obj := objs[j];
    ghost var mods := Modified(objs[..j], name);
    ModifiedStep(objs, name, j);
    if name !in obj.modified {
      assert Modified(objs[..j + 1], name) == mods;
      return Ok((whens, params, paramIndex, ids));
    }
    assert Modified(objs[..j + 1], name) == mods + [obj];
    if pk !in t.clrProperties {
      return Err(NullReferenceException);
    }
    var pkValue := ValueOf(obj, pk);
    if pkValue == VNull {
      assert ValueOf((mods + [obj])[|mods|], pk) == VNull;
      return Err(NullReferenceException);
    }
    var key := Render(pkValue);
    ColumnStep(t, pk, name, mods, obj, base, ids0, whens, params, ids);
    var whens', params', paramIndex' := AppendWhen(whens, pk, key, ValueOf(obj, name), params, paramIndex);
    var ids' := if key in ids then ids else ids + [key];
    r := Ok((whens', params', paramIndex', ids'));
  }

  /** An unreadable key among the first `j` objects makes the whole column's keys unreadable. */
  lemma UnreadableKeyStands(t: EntityType, pk: string, objs: seq<Entity>, name: string, j: nat)
    requires j <= |objs| && !KeysReadable(t, pk, Modified(objs[..j], name))
    ensures !KeysReadable(t, pk, Modified(objs, name))
  {
    ModifiedAppend(objs[..j], objs[j..], name);
    assert objs[..j] + objs[j..] == objs;
    if KeysReadable(t, pk, Modified(objs, name)) {
      KeysReadablePrefix(t, pk, Modified(objs[..j], name), Modified(objs[j..], name));
    }
  }

  /** The inner loop: every object, in input order, for one requested (known) column. */
  method CollectColumn(t: EntityType, pk: string, objs: seq<Entity>, name: string,
                       params: seq<Value>, paramIndex: nat, ids: seq<string>)
    returns (r: Result<(string, seq<Value>, nat, seq<string>)>)
    requires name in t.clrProperties && paramIndex == |params|
    ensures var c := ColumnOf(t, pk, objs, name, |params|);
            && (r.Err? <==> c.Err?)
            && (r.Err? ==> r.error == c.error)
            && (r.Ok? ==> r.value == (c.value.whens, params + c.value.params, |params + c.value.params|,
                                      AddIds(ids, c.value.keys)))
  {
    var whens := "";
    var params', paramIndex', ids' := params, paramIndex, ids;
    var j := 0;
    assert objs[..0] == [];
    while j < |objs|
      invariant 0 <= j <= |objs|
      invariant ColumnSoFar(t, pk, name, Modified(objs[..j], name), params, ids, whens, params', ids')
      invariant paramIndex' == |params'|
    {
      var step := AppendModified(t, pk, name, objs, j, params, ids, whens, params', paramIndex', ids');
      if step.Err? {
        UnreadableKeyStands(t, pk, objs, name, j + 1);
        return Err(step.error);
      }
      whens, params', paramIndex', ids' := step.value.0, step.value.1, step.value.2, step.value.3;
      j := j + 1;
    }
    assert objs[..j] == objs;
    r := Ok((whens, params', paramIndex', ids'));
  }

  /**
   * One requested column: an unknown name throws; otherwise the inner loop, and a clause
   * `<name> = CASE <whens> ELSE <name> END, ` unless no object contributed a WHEN.
   */
  method AppendColumn(t: EntityType, pk: string, objs: seq<Entity>, names: seq<string>, i: nat,
                      text: string, ghost clauses: seq<string>, params: seq<Value>, paramIndex: nat, ids: seq<string>)
    returns (r: Result<(string, seq<Value>, nat, seq<string>)>, ghost clauses': seq<string>)
    requires i < |names|
    requires Columns(t, pk, objs, names[..i]) == Ok(Built(clauses, params, ids))
    requires paramIndex == |params| && text == OpenSet(t.tableName, clauses)
    ensures r.Err? <==> Columns(t, pk, objs, names[..i + 1]).Err?
    ensures r.Err? ==> r.error == Columns(t, pk, objs, names[..i + 1]).error
    ensures r.Ok? ==>
              && Columns(t, pk, objs, names[..i + 1]) == Ok(Built(clauses', r.value.1, r.value.3))
              && r.value.0 == OpenSet(t.tableName, clauses') && r.value.2 == |r.value.1|
  {
    ColumnsStep(t, pk, objs, names, i);
    clauses' := clauses;
    var name := names[i];
    if name !in t.clrProperties {
      return Err(ArgumentException), clauses';
    }
    var col := CollectColumn(t, pk, objs, name, params, paramIndex, ids);
    if col.Err? {
      return Err(col.error), clauses';
    }
    var whens := col.value.0;
    var text' := text;
    if whens != "" {
      OpenSetSnoc(t.tableName, clauses, Clause(name, whens));
      text' := text + Clause(name, whens) + ", ";
      clauses' := clauses + [Clause(name, whens)];
    }
    ghost var c := ColumnOf(t, pk, objs, name, |params|);
    assert c.Ok? && whens == c.value.whens;
    assert clauses' == clauses + (if whens == "" then [] else [Clause(name, whens)]);
    assert NextColumn(t, pk, objs, Ok(Built(clauses, params, ids)), name)
        == Ok(Built(clauses', params + c.value.params, AddIds(ids, c.value.keys)));
    r := Ok((text', col.value.1, col.value.2, col.value.3));
  }

  /**
   * `CreateBulkUpdateQuery`: "UPDATE <table> SET ", one clause per requested column that some
   * object modified, the cut of the last two characters, and the WHERE clause over `ids`.
   */
  method CreateBulkUpdateQuery(t: EntityType, objs: seq<Entity>, names: seq<string>) returns (r: Result<UpdateQuery>)
    ensures r == SqlUpdate(t, objs, names)
  {
    var pk := t.primaryKey.name;
    var text := "UPDATE " + t.tableName + " SET ";
    ghost var clauses: seq<string> := [];
    var params: seq<Value> := [];
    var paramIndex := 0;
    var ids: seq<string> := [];
    var i := 0;
    assert names[..0] == [];
    while i < |names|
      invariant 0 <= i <= |names|
      invariant Columns(t, pk, objs, names[..i]) == Ok(Built(clauses, params, ids))
      invariant paramIndex == |params| && text == OpenSet(t.tableName, clauses)
    {
      var step;
      step, clauses := AppendColumn(t, pk, objs, names, i, text, clauses, params, paramIndex, ids);
      if step.Err? {
        assert names[..i + 1] + names[i + 1..] == names;
        ColumnsFail(t, pk, objs, names, i + 1);
        return Err(step.error);
      }
      text, params, paramIndex, ids := step.value.0, step.value.1, step.value.2, step.value.3;
      i := i + 1;
    }
    assert names[..i] == names;
    CloseUpdate(t.tableName, pk, clauses, ids);
    text := DropLast(text, 2);
    text := text + " WHERE " + pk + " IN (" + Join(",", ids) + ")";
    r := Ok(UpdateQuery(text, params, ids));
  }

  /** Once a prefix of the columns fails, the whole request fails with the same exception. */
  lemma {:induction false} ColumnsFail(t: EntityType, pk: string, objs: seq<Entity>, names: seq<string>, n: nat)
    requires n <= |names| && Columns(t, pk, objs, names[..n]).Err?
    ensures Columns(t, pk, objs, names) == Columns(t, pk, objs, names[..n])
    decreases |names| - n
  {
    if n < |names| {
      ColumnsStep(t, pk, objs, names, n);
      ColumnsFail(t, pk, objs, names, n + 1);
    } else {
      assert names[..n] == names;
    }
  }

  // ----- UPDATE: properties -----

  /** A requested column can be built: its name is a CLR property and its modified objects' keys can be read. */
  predicate Good(t: EntityType, pk: string, objs: seq<Entity>, name: string)
  {
    name in t.clrProperties && KeysReadable(t, pk, Modified(objs, name))
  }

  /** The parameters in column-major order: per requested column, the non-null values of the objects that modified it. */
  function ColumnMajor(objs: seq<Entity>, names: seq<string>): seq<Value>
    decreases |names|
  {
    if names == [] then []
    else
      var n := names[|names| - 1];
      ColumnMajor(objs, names[..|names| - 1]) + Bound(ColumnCells(Modified(objs, n), n))
  }

  /**
   * The SET clauses: one per requested column that some object modified, its placeholders
   * numbered after the parameters of the columns before it.
   */
  function ColumnClauses(pk: string, objs: seq<Entity>, names: seq<string>): seq<string>
    decreases |names|
  {
    if names == [] then []
    else
      var prior := names[..|names| - 1];
      var n := names[|names| - 1];
      var mods := Modified(objs, n);
      ColumnClauses(pk, objs, prior)
        + (if mods == [] then []
           else [Clause(n, ColumnText(pk, Keys(pk, mods), NumberFrom(ColumnCells(mods, n), |ColumnMajor(objs, prior)|)))])
  }

  /** The ids: the keys of the objects that modified each requested column, column by column, each once. */
  function ColumnKeys(pk: string, objs: seq<Entity>, names: seq<string>): seq<string>
    decreases |names|
  {
    if names == [] then []
    else
      var n := names[|names| - 1];
      AddIds(ColumnKeys(pk, objs, names[..|names| - 1]), Keys(pk, Modified(objs, n)))
  }

  /** Some requested column was modified by an object whose rendered key is `k`. */
  predicate Touched(pk: string, objs: seq<Entity>, names: seq<string>, k: string)
  {
    exists i, o :: 0 <= i < |names| && 0 <= o < |objs| && names[i] in objs[o].modified && Render(ValueOf(objs[o], pk)) == k
  }

  predicate Distinct(s: seq<string>)
  {
    forall i, j :: 0 <= i < j < |s| ==> s[i] != s[j]
  }

  /** A column contributes WHEN text exactly when some object modified it. */
  lemma ColumnTextEmpty(pk: string, keys: seq<string>, slots: seq<Slot>)
    requires |keys| == |slots|
    ensures ColumnText(pk, keys, slots) == "" <==> keys == []
  {
    if keys != [] {
      var last := WhenText(pk, keys[|keys| - 1], slots[|slots| - 1]);
      assert |last| > 0 by {
        assert last == "WHEN " + pk + " = " + keys[|keys| - 1] + " " + ThenText(slots[|slots| - 1]);
      }
    }
  }

  lemma NextColumnOk(t: EntityType, pk: string, objs: seq<Entity>, prior: Result<Built>, name: string)
    ensures NextColumn(t, pk, objs, prior, name).Ok? <==> prior.Ok? && Good(t, pk, objs, name)
  {
  }

  /** The build succeeds exactly when every requested column can be built. */
  lemma {:induction false} ColumnsOkIff(t: EntityType, pk: string, objs: seq<Entity>, names: seq<string>)
    ensures Columns(t, pk, objs, names).Ok? <==> forall i :: 0 <= i < |names| ==> Good(t, pk, objs, names[i])
    decreases |names|
  {
    if names != [] {
      var prior := names[..|names| - 1];
      var n := names[|names| - 1];
      assert (forall i :: 0 <= i < |names| ==> Good(t, pk, objs, names[i]))
             <==> (forall i :: 0 <= i < |prior| ==> Good(t, pk, objs, prior[i])) && Good(t, pk, objs, n) by {
        assert forall i :: 0 <= i < |prior| ==> prior[i] == names[i];
      }
      ColumnsOkIff(t, pk, objs, prior);
      NextColumnOk(t, pk, objs, Columns(t, pk, objs, prior), n);
    }
  }

  /** A successful build holds the reference clauses, the column-major parameters and the ids. */
  lemma {:induction false} ColumnsValue(t: EntityType, pk: string, objs: seq<Entity>, names: seq<string>)
    requires Columns(t, pk, objs, names).Ok?
    ensures Columns(t, pk, objs, names).value
            == Built(ColumnClauses(pk, objs, names), ColumnMajor(objs, names), ColumnKeys(pk, objs, names))
    decreases |names|
  {
    if names != [] {
      var prior := names[..|names| - 1];
      var n := names[|names| - 1];
      var mods := Modified(objs, n);
      ColumnsValue(t, pk, objs, prior);
      ColumnTextEmpty(pk, Keys(pk, mods), NumberFrom(ColumnCells(mods, n), |ColumnMajor(objs, prior)|));
    }
  }

  /**
   * With every column before `i` buildable and column `i` not, the update throws what column `i`
   * throws: ArgumentException for a name that is not a CLR property, NullReferenceException
   * for a modified object whose key cannot be read.
   */
  lemma FirstFailureDecides(t: EntityType, objs: seq<Entity>, names: seq<string>, i: nat)
    requires i < |names|
    requires forall j :: 0 <= j < i ==> Good(t, t.primaryKey.name, objs, names[j])
    requires !Good(t, t.primaryKey.name, objs, names[i])
    ensures SqlUpdate(t, objs, names)
            == Err(if names[i] !in t.clrProperties then ArgumentException else NullReferenceException)
  {
    var pk := t.primaryKey.name;
    assert forall j :: 0 <= j < i ==> names[..i][j] == names[j];
    ColumnsOkIff(t, pk, objs, names[..i]);
    ColumnsStep(t, pk, objs, names, i);
    ColumnsFail(t, pk, objs, names, i + 1);
  }

  /** `HashSet.Add` keeps exactly the keys offered, each once, and is empty only when nothing was offered. */
  lemma {:induction false} AddIdsSpec(ids: seq<string>, keys: seq<string>)
    ensures forall k :: k in AddIds(ids, keys) <==> k in ids || k in keys
    ensures Distinct(ids) ==> Distinct(AddIds(ids, keys))
    ensures AddIds(ids, keys) == [] <==> ids == [] && keys == []
    decreases |keys|
  {
    if keys != [] {
      var prefix := keys[..|keys| - 1];
      AddIdsSpec(ids, prefix);
      assert keys == prefix + [keys[|keys| - 1]];
    }
  }

  /** The keys of the objects that modified `name` are the keys of exactly those objects. */
  lemma {:induction false} ModifiedKeys(pk: string, objs: seq<Entity>, name: string, k: string)
    ensures k in Keys(pk, Modified(objs, name))
            <==> exists o :: 0 <= o < |objs| && name in objs[o].modified && Render(ValueOf(objs[o], pk)) == k
    decreases |objs|
  {
    if objs != [] {
      var prefix := objs[..|objs| - 1];
      var last := objs[|objs| - 1];
      var mods := Modified(prefix, name);
      ModifiedKeys(pk, prefix, name, k);
      var hit := name in last.modified && Render(ValueOf(last, pk)) == k;
      if name in last.modified {
        assert Modified(objs, name) == mods + [last];
        KeysSnoc(pk, mods, last);
        assert k in Keys(pk, Modified(objs, name)) <==> k in Keys(pk, mods) || hit;
      } else {
        assert Modified(objs, name) == mods;
      }
      if exists o :: 0 <= o < |objs| && name in objs[o].modified && Render(ValueOf(objs[o], pk)) == k {
        var o :| 0 <= o < |objs| && name in objs[o].modified && Render(ValueOf(objs[o], pk)) == k;
        if o < |prefix| {
          assert prefix[o] == objs[o];
        }
      }
      if exists o :: 0 <= o < |prefix| && name in prefix[o].modified && Render(ValueOf(prefix[o], pk)) == k {
        var o :| 0 <= o < |prefix| && name in prefix[o].modified && Render(ValueOf(prefix[o], pk)) == k;
        assert objs[o] == prefix[o];
      }
    }
  }

  /** The ids are exactly the keys of the objects that modified some requested column. */
  lemma {:induction false} ColumnKeysMembers(pk: string, objs: seq<Entity>, names: seq<string>, k: string)
    ensures k in ColumnKeys(pk, objs, names) <==> Touched(pk, objs, names, k)
    decreases |names|
  {
    if names != [] {
      var prior := names[..|names| - 1];
      var n := names[|names| - 1];
      ColumnKeysMembers(pk, objs, prior, k);
      AddIdsSpec(ColumnKeys(pk, objs, prior), Keys(pk, Modified(objs, n)));
      ModifiedKeys(pk, objs, n, k);
      if Touched(pk, objs, names, k) {
        var i, o :| 0 <= i < |names| && 0 <= o < |objs| && names[i] in objs[o].modified && Render(ValueOf(objs[o], pk)) == k;
        if i < |prior| {
          assert prior[i] == names[i];
        }
      }
      if Touched(pk, objs, prior, k) {
        var i, o :| 0 <= i < |prior| && 0 <= o < |objs| && prior[i] in objs[o].modified && Render(ValueOf(objs[o], pk)) == k;
        assert names[i] == prior[i];
      }
    }
  }

  /** No key appears twice among the ids. */
  lemma {:induction false} ColumnKeysDistinct(pk: string, objs: seq<Entity>, names: seq<string>)
    ensures Distinct(ColumnKeys(pk, objs, names))
    decreases |names|
  {
    if names != [] {
      var n := names[|names| - 1];
      ColumnKeysDistinct(pk, objs, names[..|names| - 1]);
      AddIdsSpec(ColumnKeys(pk, objs, names[..|names| - 1]), Keys(pk, Modified(objs, n)));
    }
  }

  /** No ids exactly when no SET clause, exactly when no object modified any requested column. */
  lemma {:induction false} ColumnKeysEmpty(pk: string, objs: seq<Entity>, names: seq<string>)
    ensures ColumnKeys(pk, objs, names) == [] <==> forall i :: 0 <= i < |names| ==> Modified(objs, names[i]) == []
    ensures ColumnClauses(pk, objs, names) == [] <==> forall i :: 0 <= i < |names| ==> Modified(objs, names[i]) == []
    decreases |names|
  {
    if names != [] {
      var prior := names[..|names| - 1];
      var n := names[|names| - 1];
      assert (forall i :: 0 <= i < |names| ==> Modified(objs, names[i]) == [])
             <==> (forall i :: 0 <= i < |prior| ==> Modified(objs, prior[i]) == []) && Modified(objs, n) == [] by {
        assert forall i :: 0 <= i < |prior| ==> prior[i] == names[i];
      }
      ColumnKeysEmpty(pk, objs, prior);
      AddIdsSpec(ColumnKeys(pk, objs, prior), Keys(pk, Modified(objs, n)));
    }
  }

  /** A modified object's cell holds its value for the column, bound unless null. */
  lemma {:induction false} ColumnCellsAt(mods: seq<Entity>, name: string, j: nat)
    requires j < |mods|
    ensures var v := ValueOf(mods[j], name); ColumnCells(mods, name)[j] == Cell(v, v != VNull)
    decreases |mods|
  {
    if j < |mods| - 1 {
      ColumnCellsAt(mods[..|mods| - 1], name, j);
    }
  }

  /** The parameters of the first `m` requested columns start the whole list. */
  lemma {:induction false} ColumnMajorPrefix(objs: seq<Entity>, names: seq<string>, m: nat)
    requires m <= |names|
    ensures ColumnMajor(objs, names[..m]) <= ColumnMajor(objs, names)
    decreases |names|
  {
    if m < |names| {
      var prior := names[..|names| - 1];
      ColumnMajorPrefix(objs, prior, m);
      assert prior[..m] == names[..m];
    } else {
      assert names[..m] == names;
    }
  }

  /**
   * Lock-step in the update: the WHEN of the `j`-th object that modified column `i` carries a
   * placeholder exactly when its value is not null, and that placeholder's index names this value
   * in the column-major parameter list.
   */
  lemma ColumnSlotAt(objs: seq<Entity>, names: seq<string>, i: nat, j: nat)
    requires i < |names| && j < |Modified(objs, names[i])|
    ensures var n := names[i];
            var mods := Modified(objs, n);
            var s := NumberFrom(ColumnCells(mods, n), |ColumnMajor(objs, names[..i])|)[j];
            && (s.ParamSlot? <==> ValueOf(mods[j], n) != VNull)
            && (s.ParamSlot? ==> s.index < |ColumnMajor(objs, names)| && ColumnMajor(objs, names)[s.index] == ValueOf(mods[j], n))
  {
    var n := names[i];
    var mods := Modified(objs, n);
    var cells := ColumnCells(mods, n);
    var start := |ColumnMajor(objs, names[..i])|;
    ColumnCellsAt(mods, n, j);
    ColumnWindow(objs, names, i);
    SlotInWhole(ColumnMajor(objs, names), ColumnMajor(objs, names[..i]), cells, j);
  }

  /** Column `i`'s parameters follow those of the columns before it, at the head of the whole list. */
  lemma ColumnWindow(objs: seq<Entity>, names: seq<string>, i: nat)
    requires i < |names|
    ensures ColumnMajor(objs, names[..i]) + Bound(ColumnCells(Modified(objs, names[i]), names[i])) <= ColumnMajor(objs, names)
  {
    assert names[..i + 1][..i] == names[..i];
    ColumnMajorPrefix(objs, names, i + 1);
  }

  /**
   * A successful update: the reference SET clauses, the column-major parameters and the ids, in
   * the statement `UPDATE <table> SET <clauses> WHERE <pk> IN (<ids>)`.
   */
  lemma SqlUpdateSpec(t: EntityType, objs: seq<Entity>, names: seq<string>)
    ensures var pk := t.primaryKey.name;
            SqlUpdate(t, objs, names).Ok? <==> forall i :: 0 <= i < |names| ==> Good(t, pk, objs, names[i])
    ensures var pk := t.primaryKey.name;
            SqlUpdate(t, objs, names).Ok? ==>
              var keys := ColumnKeys(pk, objs, names);
              SqlUpdate(t, objs, names).value
              == UpdateQuery(UpdateText(t.tableName, pk, ColumnClauses(pk, objs, names), keys), ColumnMajor(objs, names), keys)
  {
    var pk := t.primaryKey.name;
    ColumnsOkIff(t, pk, objs, names);
    if Columns(t, pk, objs, names).Ok? {
      ColumnsValue(t, pk, objs, names);
    }
  }
}
