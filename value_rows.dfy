/**
 * The grid of values a multi-row statement visits: one row per object, one cell per property,
 * in declaration order, and the slot written for each cell once the cells are numbered row by
 * row. The insert builders and the object-major update builders both walk this grid.
 */
module ValueRows {
  import opened SqlText
  import opened Linq
  import opened EntityModel
  import opened Placeholders

  /**
   * Whether the insert binds a property's value: null is always written as NULL, and a
   * store-generated property holding a boxed Int32 0 is also left to the database.
   */
  predicate Binds(p: Property, v: Value)
  {
    v != VNull && !(p.generatedOnAdd && v == VInt32(0))
  }

  /** The cells of one object's row, one per declared property, in declaration order. */
  function RowCells(ps: seq<Property>, e: Entity): (r: seq<Cell>)
    ensures |r| == |ps|
    decreases |ps|
  {
    if ps == [] then []
    else
      var p := ps[|ps| - 1];
      RowCells(ps[..|ps| - 1], e) + [Cell(ValueOf(e, p.name), Binds(p, ValueOf(e, p.name)))]
  }

  /** All cells of the batch, row after row. */
  function BatchCells(ps: seq<Property>, objs: seq<Entity>): seq<Cell>
    decreases |objs|
  {
    if objs == [] then [] else BatchCells(ps, objs[..|objs| - 1]) + RowCells(ps, objs[|objs| - 1])
  }

  /** The slots of every row: each row numbered after the parameters of the rows before it. */
  function BatchRows(ps: seq<Property>, objs: seq<Entity>): (r: seq<seq<Slot>>)
    ensures |r| == |objs|
    decreases |objs|
  {
    if objs == [] then []
    else
      var prefix := objs[..|objs| - 1];
      BatchRows(ps, prefix) + [NumberFrom(RowCells(ps, objs[|objs| - 1]), |Bound(BatchCells(ps, prefix))|)]
  }

  /** The parameter list: every bound value, row by row, property by property. */
  function BatchParams(ps: seq<Property>, objs: seq<Entity>): seq<Value>
  {
    Bound(BatchCells(ps, objs))
  }

  /** Extending a row by one property adds that property's cell, slot and parameter. */
  lemma RowStep(ps: seq<Property>, j: nat, e: Entity, start: nat)
    requires j < |ps|
    ensures var cells := RowCells(ps[..j], e);
            var v := ValueOf(e, ps[j].name);
            && RowCells(ps[..j + 1], e) == cells + [Cell(v, Binds(ps[j], v))]
            && Bound(RowCells(ps[..j + 1], e)) == Bound(cells) + (if Binds(ps[j], v) then [v] else [])
            && NumberFrom(RowCells(ps[..j + 1], e), start)
               == NumberFrom(cells, start) + [if Binds(ps[j], v) then ParamSlot(start + |Bound(cells)|) else NullSlot]
  {
    assert ps[..j + 1][..j] == ps[..j];
    var cells := RowCells(ps[..j], e);
    var v := ValueOf(e, ps[j].name);
    assert (cells + [Cell(v, Binds(ps[j], v))])[..|cells|] == cells;
  }

  /** Extending the batch by one object adds that object's cells and row. */
  lemma BatchStep(ps: seq<Property>, objs: seq<Entity>, i: nat)
    requires i < |objs|
    ensures BatchCells(ps, objs[..i + 1]) == BatchCells(ps, objs[..i]) + RowCells(ps, objs[i])
    ensures BatchRows(ps, objs[..i + 1])
            == BatchRows(ps, objs[..i]) + [NumberFrom(RowCells(ps, objs[i]), |Bound(BatchCells(ps, objs[..i]))|)]
    ensures Bound(BatchCells(ps, objs[..i + 1])) == Bound(BatchCells(ps, objs[..i])) + Bound(RowCells(ps, objs[i]))
  {
    assert objs[..i + 1][..i] == objs[..i];
    NumberFromAppend(BatchCells(ps, objs[..i]), RowCells(ps, objs[i]), 0);
  }


  lemma {:induction false} BatchCellsAppend(ps: seq<Property>, a: seq<Entity>, b: seq<Entity>)
    ensures BatchCells(ps, a + b) == BatchCells(ps, a) + BatchCells(ps, b)
    decreases |b|
  {
    if b == [] {
      assert a + b == a;
    } else {
      var b' := b[..|b| - 1];
      var last := b[|b| - 1];
      assert a + b == (a + b') + [last];
      assert ((a + b') + [last])[..|a + b'|] == a + b';
      BatchCellsAppend(ps, a, b');
      assert BatchCells(ps, b) == BatchCells(ps, b') + RowCells(ps, last);
    }
  }

  lemma {:induction false} RowCellAt(ps: seq<Property>, e: Entity, c: nat)
    requires c < |ps|
    ensures RowCells(ps, e)[c] == Cell(ValueOf(e, ps[c].name), Binds(ps[c], ValueOf(e, ps[c].name)))
    decreases |ps|
  {
    if c < |ps| - 1 {
      RowCellAt(ps[..|ps| - 1], e, c);
    }
  }

  /** Row r is numbered after the parameters of the rows before it. */
  lemma {:induction false} BatchRowAt(ps: seq<Property>, objs: seq<Entity>, r: nat)
    requires r < |objs|
    ensures BatchRows(ps, objs)[r] == NumberFrom(RowCells(ps, objs[r]), |Bound(BatchCells(ps, objs[..r]))|)
    decreases |objs|
  {
    var prefix := objs[..|objs| - 1];
    if r < |objs| - 1 {
      BatchRowAt(ps, prefix, r);
      assert prefix[..r] == objs[..r];
    }
  }

  /** The batch's parameters are those of its first n objects followed by those of the rest. */
  lemma BatchParamsSplit(ps: seq<Property>, objs: seq<Entity>, n: nat)
    requires n <= |objs|
    ensures BatchParams(ps, objs) == BatchParams(ps, objs[..n]) + BatchParams(ps, objs[n..])
  {
    assert objs == objs[..n] + objs[n..];
    BatchCellsAppend(ps, objs[..n], objs[n..]);
    NumberFromAppend(BatchCells(ps, objs[..n]), BatchCells(ps, objs[n..]), 0);
  }

  /**
   * Shape of the VALUES clause: one row per object, one slot per declared property, and a slot
   * is a placeholder exactly when the value is bound (not null, and not an Int32 0 in a
   * store-generated property).
   */
  lemma BatchSlotAt(ps: seq<Property>, objs: seq<Entity>, r: nat, c: nat)
    requires r < |objs| && c < |ps|
    ensures |BatchRows(ps, objs)[r]| == |ps|
    ensures BatchRows(ps, objs)[r][c].ParamSlot? <==> Binds(ps[c], ValueOf(objs[r], ps[c].name))
  {
    BatchRowAt(ps, objs, r);
    RowCellAt(ps, objs[r], c);
    NumberFromAt(RowCells(ps, objs[r]), |BatchParams(ps, objs[..r])|, c);
  }

  /** Lock-step: placeholder `{k}` in row r, column c names parameter k, which is that object's value there. */
  lemma BatchParamAt(ps: seq<Property>, objs: seq<Entity>, r: nat, c: nat)
    requires r < |objs| && c < |ps| && c < |BatchRows(ps, objs)[r]| && BatchRows(ps, objs)[r][c].ParamSlot?
    ensures var k := BatchRows(ps, objs)[r][c].index;
            k < |BatchParams(ps, objs)| && BatchParams(ps, objs)[k] == ValueOf(objs[r], ps[c].name)
  {
    BatchRowAt(ps, objs, r);
    RowCellAt(ps, objs[r], c);
    RowParamAt(ps, objs, r, c);
  }

  /** A placeholder of object r's row names its cell's value in the batch's parameter list. */
  lemma RowParamAt(ps: seq<Property>, objs: seq<Entity>, r: nat, c: nat)
    requires r < |objs| && c < |ps|
    ensures var s := NumberFrom(RowCells(ps, objs[r]), |BatchParams(ps, objs[..r])|)[c];
            s.ParamSlot? ==> s.index < |BatchParams(ps, objs)| && BatchParams(ps, objs)[s.index] == RowCells(ps, objs[r])[c].value
  {
    ParamsWindow(ps, objs, r);
    PlaceholderInList(BatchParams(ps, objs), |BatchParams(ps, objs[..r])|, RowCells(ps, objs[r]), c);
  }

  /** Object r's parameters sit in the batch's list right after those of the objects before it. */
  lemma ParamsWindow(ps: seq<Property>, objs: seq<Entity>, r: nat)
    requires r < |objs|
    ensures var start := |BatchParams(ps, objs[..r])|;
            var mid := Bound(RowCells(ps, objs[r]));
            && start + |mid| <= |BatchParams(ps, objs)|
            && forall j :: 0 <= j < |mid| ==> BatchParams(ps, objs)[start + j] == mid[j]
  {
    ParamsAround(ps, objs, r);
    Middle(BatchParams(ps, objs), BatchParams(ps, objs[..r]), Bound(RowCells(ps, objs[r])), BatchParams(ps, objs[r + 1..]));
  }

  /** The batch's parameters are those of the objects before r, then object r's, then the rest. */
  lemma ParamsAround(ps: seq<Property>, objs: seq<Entity>, r: nat)
    requires r < |objs|
    ensures BatchParams(ps, objs)
            == BatchParams(ps, objs[..r]) + Bound(RowCells(ps, objs[r])) + BatchParams(ps, objs[r + 1..])
  {
    BatchStep(ps, objs, r);
    BatchParamsSplit(ps, objs, r + 1);
  }

  /** The rows, read one after another, are the batch's cells numbered from 0. */
  lemma {:induction false} BatchRowsFlatten(ps: seq<Property>, objs: seq<Entity>)
    ensures Flatten(BatchRows(ps, objs)) == NumberFrom(BatchCells(ps, objs), 0)
    decreases |objs|
  {
    if objs != [] {
      var prefix := objs[..|objs| - 1];
      var cells := BatchCells(ps, prefix);
      var row := RowCells(ps, objs[|objs| - 1]);
      var last := NumberFrom(row, |Bound(cells)|);
      calc {
        Flatten(BatchRows(ps, objs));
        Flatten(BatchRows(ps, prefix) + [last]);
        { FlattenSnoc(BatchRows(ps, prefix), last); }
        Flatten(BatchRows(ps, prefix)) + last;
        { BatchRowsFlatten(ps, prefix); }
        NumberFrom(cells, 0) + last;
        { NumberFromAppend(cells, row, 0); }
        NumberFrom(cells + row, 0);
        NumberFrom(BatchCells(ps, objs), 0);
      }
    }
  }

  /** Read left to right, the placeholders are {0}, {1}, ..., one per parameter and in parameter order. */
  lemma BatchPlaceholdersInOrder(ps: seq<Property>, objs: seq<Entity>)
    ensures Indices(Flatten(BatchRows(ps, objs))) == Range(0, |BatchParams(ps, objs)|)
  {
    BatchRowsFlatten(ps, objs);
    NumberFromInOrder(BatchCells(ps, objs), 0);
  }
}
