/**
 * The multi-row INSERT that all three builders emit:
 *   INSERT INTO <table> (<names joined by ','>) VALUES (<row>), (<row>), ...
 * with one slot per declared property in every row, each slot either NULL or a positional
 * placeholder `{k}` whose value is the k-th parameter.
 */
module BulkInsert {
  import opened Wrappers
  import opened SqlText
  import opened Linq
  import opened EntityModel
  import opened Placeholders
  import opened ValueRows

  /** The slot texts of one row: NULL or `{k}`. */
  function SlotTexts(slots: seq<Slot>): (r: seq<string>)
    ensures |r| == |slots|
    decreases |slots|
  {
    if slots == [] then [] else SlotTexts(slots[..|slots| - 1]) + [SlotText(slots[|slots| - 1])]
  }

  /** One parenthesised row group. */
  function RowText(row: seq<Slot>): string
  {
    "(" + Join(", ", SlotTexts(row)) + ")"
  }

  function RowTexts(rows: seq<seq<Slot>>): (r: seq<string>)
    ensures |r| == |rows|
    decreases |rows|
  {
    if rows == [] then [] else RowTexts(rows[..|rows| - 1]) + [RowText(rows[|rows| - 1])]
  }

  function InsertHeader(table: string, names: seq<string>): string
  {
    "INSERT INTO " + table + " (" + Join(",", names) + ") VALUES "
  }

  /** The statement text: header, then the row groups separated by ", ". */
  function InsertText(header: string, ps: seq<Property>, objs: seq<Entity>): string
  {
    header + Join(", ", RowTexts(BatchRows(ps, objs)))
  }

  /** A built statement: its text and its positional parameters. */
  datatype Query = Query(text: string, parameters: seq<Value>)

  /**
   * The outcome of an insert builder whose statement starts with `header`: an empty list throws
   * ArgumentException before anything is read; a declared property that `GetProperty` cannot
   * find makes the first `GetValue` throw NullReferenceException.
   */
  function InsertQuery(header: string, t: EntityType, objs: seq<Entity>): Result<Query>
  {
    if objs == [] then Err(ArgumentException)
    else if !Readable(t) then Err(NullReferenceException)
    else Ok(Query(InsertText(header, t.properties, objs), BatchParams(t.properties, objs)))
  }

  /** The header naming the mapped column names (`GetColumnName()`). */
  function ColumnHeader(t: EntityType): string
  {
    InsertHeader(t.tableName, ColumnNames(t.properties))
  }

  /** The outcome of an insert builder that names the mapped columns. */
  function ColumnInsert(t: EntityType, objs: seq<Entity>): Result<Query>
  {
    InsertQuery(ColumnHeader(t), t, objs)
  }

  lemma SlotTextsSnoc(slots: seq<Slot>, s: Slot)
    ensures SlotTexts(slots + [s]) == SlotTexts(slots) + [SlotText(s)]
  {
    assert (slots + [s])[..|slots|] == slots;
  }

  lemma RowTextsSnoc(rows: seq<seq<Slot>>, row: seq<Slot>)
    ensures RowTexts(rows + [row]) == RowTexts(rows) + [RowText(row)]
  {
    assert (rows + [row])[..|rows|] == rows;
  }

  /** The text of a row group still open: '(' and each slot followed by ", ". */
  function OpenRow(sb: string, slots: seq<Slot>): string
  {
    sb + "(" + Terminated(SlotTexts(slots), ", ")
  }

  lemma OpenRowSnoc(sb: string, slots: seq<Slot>, s: Slot)
    ensures OpenRow(sb, slots + [s]) == OpenRow(sb, slots) + SlotText(s) + ", "
  {
    SlotTextsSnoc(slots, s);
    TerminatedSnoc(SlotTexts(slots), SlotText(s), ", ");
  }

  /** Cutting the last ", " of an open row group and appending "), " closes it. */
  lemma CloseRow(sb: string, slots: seq<Slot>)
    requires slots != []
    ensures |OpenRow(sb, slots)| >= 2
    ensures DropLast(OpenRow(sb, slots), 2) + "), " == sb + RowText(slots) + ", "
  {
    var inner := Join(", ", SlotTexts(slots));
    TerminatedIsJoinThenSep(SlotTexts(slots), ", ");
    assert OpenRow(sb, slots) == (sb + "(" + inner) + ", ";
    DropSuffix(sb + "(" + inner, ", ");
  }

  /**
   * One property's slot: a store-generated property whose value is null or Int32 0, and any
   * other null, is written as NULL; otherwise `{paramIndex}` is written and the value added.
   */
  method AppendSlot(text: string, p: Property, v: Value, params: seq<Value>, paramIndex: nat)
    returns (text': string, params': seq<Value>, paramIndex': nat)
    requires paramIndex == |params|
    ensures text' == text + SlotText(if Binds(p, v) then ParamSlot(paramIndex) else NullSlot) + ", "
    ensures params' == params + (if Binds(p, v) then [v] else [])
    ensures paramIndex' == |params'|
  {
    text', params', paramIndex' := text, params, paramIndex;
    if p.generatedOnAdd {
      // A generated value that is unset (null or Int32 0) is left to the database.
      if v == VNull || v == VInt32(0) {
        text' := text' + "NULL, ";
      } else {
        params' := params' + [v];
        text' := text' + "{" + NatToString(paramIndex') + "}, ";
        paramIndex' := paramIndex' + 1;
      }
    } else {
      if v == VNull {
        text' := text' + "NULL, ";
      } else {
        params' := params' + [v];
        text' := text' + "{" + NatToString(paramIndex') + "}, ";
        paramIndex' := paramIndex' + 1;
      }
    }
  }

  /** The state of the row loop after the first j declared properties. */
  ghost predicate RowSoFar(sb: string, ps: seq<Property>, obj: Entity, parameters: seq<Value>, j: nat,
                           text: string, params: seq<Value>, slots: seq<Slot>)
  {
    && j <= |ps|
    && params == parameters + Bound(RowCells(ps[..j], obj))
    && slots == NumberFrom(RowCells(ps[..j], obj), |parameters|)
    && text == OpenRow(sb, slots)
  }

  lemma RowSoFarStep(sb: string, ps: seq<Property>, obj: Entity, parameters: seq<Value>, j: nat,
                     text: string, params: seq<Value>, slots: seq<Slot>)
    requires RowSoFar(sb, ps, obj, parameters, j, text, params, slots) && j < |ps|
    ensures var v := ValueOf(obj, ps[j].name);
            var slot := if Binds(ps[j], v) then ParamSlot(|params|) else NullSlot;
            RowSoFar(sb, ps, obj, parameters, j + 1, text + SlotText(slot) + ", ",
                     params + (if Binds(ps[j], v) then [v] else []), slots + [slot])
  {
    var cells := RowCells(ps[..j], obj);
    var v := ValueOf(obj, ps[j].name);
    RowStep(ps, j, obj, |parameters|);
    assert |params| == |parameters| + |Bound(cells)|;
    if Binds(ps[j], v) {
      AppendAssoc(parameters, Bound(cells), [v]);
      OpenRowSnoc(sb, slots, ParamSlot(|params|));
    } else {
      assert Bound(RowCells(ps[..j + 1], obj)) == Bound(cells) + [];
      OpenRowSnoc(sb, slots, NullSlot);
    }
  }

  /** One iteration of the property loop: the slot of property j, and its value when bound. */
  method AppendProperty(sb: string, ps: seq<Property>, obj: Entity, parameters: seq<Value>, j: nat,
                        text: string, params: seq<Value>, paramIndex: nat, ghost slots: seq<Slot>)
    returns (text': string, params': seq<Value>, paramIndex': nat, ghost slots': seq<Slot>)
    requires j < |ps| && paramIndex == |params|
    requires RowSoFar(sb, ps, obj, parameters, j, text, params, slots)
    ensures RowSoFar(sb, ps, obj, parameters, j + 1, text', params', slots') && paramIndex' == |params'|
  {
    var v := ValueOf(obj, ps[j].name);
    slots' := slots + [if Binds(ps[j], v) then ParamSlot(paramIndex) else NullSlot];
    RowSoFarStep(sb, ps, obj, parameters, j, text, params, slots);
    text', params', paramIndex' := AppendSlot(text, ps[j], v, params, paramIndex);
  }

  /**
   * One object's row group: '(' then, per declared property, NULL or `{paramIndex++}` followed
   * by ", "; the last ", " is cut and "), " appended. Reading a shadow property (one with no
   * CLR property) through the null-forgiven PropertyInfo throws.
   */
  method AppendRow(sb: string, t: EntityType, obj: Entity, parameters: seq<Value>)
    returns (r: Result<(string, seq<Value>)>)
    requires |t.properties| > 0
    ensures r.Err? <==> !Readable(t)
    ensures r.Err? ==> r.error == NullReferenceException
    ensures r.Ok? ==>
              var row := NumberFrom(RowCells(t.properties, obj), |parameters|);
              r.value == (sb + RowText(row) + ", ", parameters + Bound(RowCells(t.properties, obj)))
  {
    var ps := t.properties;
    var text := sb + "(";
    var params := parameters;
    var paramIndex := |parameters|;
    ghost var slots: seq<Slot> := [];
    var j := 0;
    assert text == OpenRow(sb, slots);
    while j < |ps|
      invariant 0 <= j <= |ps|
      invariant forall c :: 0 <= c < j ==> ps[c].name in t.clrProperties
      invariant RowSoFar(sb, ps, obj, parameters, j, text, params, slots)
      invariant paramIndex == |params|
    {
      var p := ps[j];
      if p.name !in t.clrProperties {
        return Err(NullReferenceException);
      }
      text, params, paramIndex, slots := AppendProperty(sb, ps, obj, parameters, j, text, params, paramIndex, slots);
      j := j + 1;
    }
    assert ps[..j] == ps;
    CloseRow(sb, slots);
    text := DropLast(text, 2);
    text := text + "), ";
    r := Ok((text, params));
  }

  /** The statement text while rows are still being appended: each row group followed by ", ". */
  function OpenValues(header: string, rows: seq<seq<Slot>>): string
  {
    header + Terminated(RowTexts(rows), ", ")
  }

  lemma OpenValuesSnoc(header: string, rows: seq<seq<Slot>>, row: seq<Slot>)
    ensures OpenValues(header, rows + [row]) == OpenValues(header, rows) + RowText(row) + ", "
  {
    RowTextsSnoc(rows, row);
    TerminatedSnoc(RowTexts(rows), RowText(row), ", ");
  }

  lemma CloseValues(header: string, rows: seq<seq<Slot>>)
    requires rows != []
    ensures |OpenValues(header, rows)| >= 2
    ensures DropLast(OpenValues(header, rows), 2) == header + Join(", ", RowTexts(rows))
  {
    TerminatedIsJoinThenSep(RowTexts(rows), ", ");
    assert OpenValues(header, rows) == (header + Join(", ", RowTexts(rows))) + ", ";
    DropSuffix(header + Join(", ", RowTexts(rows)), ", ");
  }

  /**
   * The loop shared by the three builders: append each object's row group, then cut the
   * trailing ", ".
   */
  method BuildValues(header: string, t: EntityType, objs: seq<Entity>) returns (r: Result<Query>)
    requires |t.properties| > 0 && objs != []
    ensures !Readable(t) ==> r == Err(NullReferenceException)
    ensures Readable(t) ==>
              r == Ok(Query(InsertText(header, t.properties, objs), BatchParams(t.properties, objs)))
  {
    var ps := t.properties;
    var sb := header;
    var parameters: seq<Value> := [];
    var i := 0;
    while i < |objs|
      invariant 0 <= i <= |objs|
      invariant i > 0 ==> Readable(t)
      invariant parameters == Bound(BatchCells(ps, objs[..i]))
      invariant sb == OpenValues(header, BatchRows(ps, objs[..i]))
    {
      var row := AppendRow(sb, t, objs[i], parameters);
      if row.Err? {
        return Err(row.error);
      }
      BatchStep(ps, objs, i);
      OpenValuesSnoc(header, BatchRows(ps, objs[..i]), NumberFrom(RowCells(ps, objs[i]), |parameters|));
      sb, parameters := row.value.0, row.value.1;
      i := i + 1;
    }
    assert objs[..i] == objs;
    CloseValues(header, BatchRows(ps, objs));
    sb := DropLast(sb, 2);
    r := Ok(Query(sb, parameters));
  }

  /** The text is the header followed by the row groups, and it ends with ')' rather than a trailing ", ". */
  lemma InsertTextEnds(header: string, ps: seq<Property>, objs: seq<Entity>)
    requires objs != []
    ensures var text := InsertText(header, ps, objs);
            |text| > |header| && text[..|header|] == header && text[|text| - 1] == ')'
  {
    var parts := RowTexts(BatchRows(ps, objs));
    var last := parts[|parts| - 1];
    assert last == RowText(BatchRows(ps, objs)[|objs| - 1]) by {
      RowTextsAt(BatchRows(ps, objs), |objs| - 1);
    }
    JoinEndsWithLast(", ", parts);
  }

  lemma {:induction false} RowTextsAt(rows: seq<seq<Slot>>, k: nat)
    requires k < |rows|
    ensures RowTexts(rows)[k] == RowText(rows[k])
    decreases |rows|
  {
    if k < |rows| - 1 {
      RowTextsAt(rows[..|rows| - 1], k);
    }
  }

  lemma JoinEndsWithLast(sep: string, parts: seq<string>)
    requires parts != [] && parts[|parts| - 1] != []
    ensures var j := Join(sep, parts);
            var last := parts[|parts| - 1];
            |j| >= |last| && j[|j| - |last|..] == last
  {
  }

  /** Every slot of every row agrees with the parameter list: bound values only, at their own index. */
  lemma RowsMatchParams(ps: seq<Property>, objs: seq<Entity>)
    ensures var rows, params := BatchRows(ps, objs), BatchParams(ps, objs);
            forall r, c :: 0 <= r < |objs| && 0 <= c < |ps| ==>
              && |rows[r]| == |ps|
              && (rows[r][c].ParamSlot? <==> Binds(ps[c], ValueOf(objs[r], ps[c].name)))
              && (rows[r][c].ParamSlot? ==>
                    rows[r][c].index < |params| && params[rows[r][c].index] == ValueOf(objs[r], ps[c].name))
  {
    forall r, c | 0 <= r < |objs| && 0 <= c < |ps|
      ensures var rows, params := BatchRows(ps, objs), BatchParams(ps, objs);
              && |rows[r]| == |ps|
              && (rows[r][c].ParamSlot? <==> Binds(ps[c], ValueOf(objs[r], ps[c].name)))
              && (rows[r][c].ParamSlot? ==>
                    rows[r][c].index < |params| && params[rows[r][c].index] == ValueOf(objs[r], ps[c].name))
    {
      BatchSlotAt(ps, objs, r, c);
      if BatchRows(ps, objs)[r][c].ParamSlot? {
        BatchParamAt(ps, objs, r, c);
      }
    }
  }

  /**
   * What an insert builder returns: an empty list throws ArgumentException, an unreadable
   * property NullReferenceException; otherwise the header and one row group per object, in input
   * order, with the bound values as parameters and the placeholders reading {0}, {1}, ... in order
   * (`RowsMatchParams` says which slot names which parameter).
   */
  lemma InsertQuerySpec(header: string, t: EntityType, objs: seq<Entity>)
    ensures InsertQuery(header, t, objs).Ok? <==> objs != [] && Readable(t)
    ensures objs == [] ==> InsertQuery(header, t, objs) == Err(ArgumentException)
    ensures objs != [] && !Readable(t) ==> InsertQuery(header, t, objs) == Err(NullReferenceException)
    ensures objs != [] && Readable(t) ==>
              var rows, params := BatchRows(t.properties, objs), BatchParams(t.properties, objs);
              && InsertQuery(header, t, objs) == Ok(Query(header + Join(", ", RowTexts(rows)), params))
              && |RowTexts(rows)| == |objs|
              && Indices(Flatten(rows)) == Range(0, |params|)
  {
    BatchPlaceholdersInOrder(t.properties, objs);
  }
}
