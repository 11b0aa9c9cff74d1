/**
 * The object-major bulk UPDATE of the Sqlite and relational services:
 *   UPDATE <table> SET <name> = CASE WHEN <pk> = <key> THEN NULL|{k} ... ELSE <name> END, ...
 *     WHERE <pk> IN (<key>,<key>,...)
 * Every object contributes a WHEN to every requested name (no change-tracking filter), the
 * WHEN fragments are collected in a dictionary with one builder per distinct name, and the
 * placeholders are numbered object by object, name by name.
 */
module CaseUpdate {
  import opened Wrappers
  import opened SqlText
  import opened EntityModel
  import opened Placeholders
  import opened ValueRows

  /** A built update: its text, its positional parameters and the rendered keys it targets. */
  datatype UpdateQuery = UpdateQuery(text: string, parameters: seq<Value>, ids: seq<string>)

  /** The requested names read as plain properties: a null value gives NULL, anything else a parameter. */
  function Plain(names: seq<string>): (r: seq<Property>)
    ensures |r| == |names|
    ensures forall j :: 0 <= j < |names| ==> r[j] == Property(names[j], names[j], false)
  {
    seq(|names|, j requires 0 <= j < |names| => Property(names[j], names[j], false))
  }

  /** The keys of the per-name dictionary: each requested name once, at its first occurrence. */
  function DistinctKeys(names: seq<string>): seq<string>
    decreases |names|
  {
    if names == [] then []
    else
      var keys := DistinctKeys(names[..|names| - 1]);
      if names[|names| - 1] in keys then keys else keys + [names[|names| - 1]]
  }

  /** One `WHEN <pk> = <key> THEN NULL|{k} ` fragment. */
  function WhenText(pk: string, key: string, slot: Slot): string
  {
    WhenHead(pk, key) + ThenText(slot)
  }

  function WhenHead(pk: string, key: string): string
  {
    "WHEN " + pk + " = " + key + " "
  }

  function ThenText(slot: Slot): string
  {
    "THEN " + SlotText(slot) + " "
  }

  lemma ThenTexts(k: nat)
    ensures ThenText(NullSlot) == "THEN NULL "
    ensures ThenText(ParamSlot(k)) == "THEN {" + NatToString(k) + "} "
  {
  }

  /** What one object adds to the builder of `name`: a fragment for each position holding `name`. */
  function ObjectWhens(pk: string, key: string, names: seq<string>, row: seq<Slot>, name: string): string
    requires |row| == |names|
    decreases |names|
  {
    if names == [] then ""
    else
      ObjectWhens(pk, key, names[..|names| - 1], row[..|row| - 1], name)
        + (if names[|names| - 1] == name then WhenText(pk, key, row[|row| - 1]) else "")
  }

  /** The WHEN fragments collected for `name` over the objects, object after object. */
  function Whens(pk: string, names: seq<string>, objs: seq<Entity>, name: string): string
    decreases |objs|
  {
    if objs == [] then ""
    else
      var prefix := objs[..|objs| - 1];
      var o := objs[|objs| - 1];
      Whens(pk, names, prefix, name)
        + ObjectWhens(pk, Render(ValueOf(o, pk)), names,
                      NumberFrom(RowCells(Plain(names), o), |BatchParams(Plain(names), prefix)|), name)
  }

  function Clause(name: string, whens: string): string
  {
    name + " = CASE " + whens + " ELSE " + name + " END"
  }

  /** One CASE clause per dictionary key, in key order. */
  function Clauses(pk: string, names: seq<string>, objs: seq<Entity>, keys: seq<string>): (r: seq<string>)
    ensures |r| == |keys|
    decreases |keys|
  {
    if keys == [] then []
    else
      var k := keys[|keys| - 1];
      Clauses(pk, names, objs, keys[..|keys| - 1]) + [Clause(k, Whens(pk, names, objs, k))]
  }

  /** Every object's rendered key, in input order, duplicates kept. */
  function Keys(pk: string, objs: seq<Entity>): (r: seq<string>)
    ensures |r| == |objs|
    decreases |objs|
  {
    if objs == [] then [] else Keys(pk, objs[..|objs| - 1]) + [Render(ValueOf(objs[|objs| - 1], pk))]
  }

  /** `ids` holds object o's rendered key at position o. */
  lemma {:induction false} KeysAt(pk: string, objs: seq<Entity>, o: nat)
    requires o < |objs|
    ensures Keys(pk, objs)[o] == Render(ValueOf(objs[o], pk))
    decreases |objs|
  {
    if o < |objs| - 1 {
      KeysAt(pk, objs[..|objs| - 1], o);
    }
  }

  /**
   * The statement text. With no clause, cutting two characters from "UPDATE <table> SET "
   * leaves "UPDATE <table> SE".
   */
  function UpdateText(table: string, pk: string, clauses: seq<string>, ids: seq<string>): string
  {
    (if clauses == [] then "UPDATE " + table + " SE" else "UPDATE " + table + " SET " + Join(", ", clauses))
      + " WHERE " + pk + " IN (" + Join(",", ids) + ")"
  }

  predicate UnknownName(t: EntityType, names: seq<string>)
  {
    exists j :: 0 <= j < |names| && names[j] !in t.clrProperties
  }

  /** Reading some object's key throws: the key has no CLR property, or an object's key is null. */
  predicate KeyUnreadable(t: EntityType, pk: string, objs: seq<Entity>)
  {
    objs != [] && (pk !in t.clrProperties || exists o :: 0 <= o < |objs| && ValueOf(objs[o], pk) == VNull)
  }

  /** The outcome of the object-major update of `objs` on `names`, with `pk` naming the key. */
  function UpdateOutcome(t: EntityType, pk: string, objs: seq<Entity>, names: seq<string>): Result<UpdateQuery>
  {
    if UnknownName(t, names) then Err(ArgumentException)
    else if KeyUnreadable(t, pk, objs) then Err(NullReferenceException)
    else
      var ids := Keys(pk, objs);
      Ok(UpdateQuery(UpdateText(t.tableName, pk, Clauses(pk, names, objs, DistinctKeys(names)), ids),
                     BatchParams(Plain(names), objs), ids))
  }

  // ----- Step lemmas for the builder -----

  lemma DistinctKeysStep(names: seq<string>, j: nat)
    requires j < |names|
    ensures DistinctKeys(names[..j + 1])
            == if names[j] in DistinctKeys(names[..j]) then DistinctKeys(names[..j]) else DistinctKeys(names[..j]) + [names[j]]
  {
    assert names[..j + 1][..j] == names[..j];
  }

  lemma WhensStep(pk: string, names: seq<string>, objs: seq<Entity>, i: nat, name: string)
    requires i < |objs|
    ensures Whens(pk, names, objs[..i + 1], name)
            == Whens(pk, names, objs[..i], name)
               + ObjectWhens(pk, Render(ValueOf(objs[i], pk)), names,
                             NumberFrom(RowCells(Plain(names), objs[i]), |BatchParams(Plain(names), objs[..i])|), name)
  {
    assert objs[..i + 1][..i] == objs[..i];
  }

  lemma ClausesStep(pk: string, names: seq<string>, objs: seq<Entity>, keys: seq<string>, c: nat)
    requires c < |keys|
    ensures Clauses(pk, names, objs, keys[..c + 1])
            == Clauses(pk, names, objs, keys[..c]) + [Clause(keys[c], Whens(pk, names, objs, keys[c]))]
  {
    assert keys[..c + 1][..c] == keys[..c];
  }

  lemma KeysStep(pk: string, objs: seq<Entity>, i: nat)
    requires i < |objs|
    ensures Keys(pk, objs[..i + 1]) == Keys(pk, objs[..i]) + [Render(ValueOf(objs[i], pk))]
  {
    assert objs[..i + 1][..i] == objs[..i];
  }

  /**
   * The dictionary after one object: for each requested name in order, its WHEN appended to that
   * name's builder.
   */
  function Extend(cache: map<string, string>, pk: string, key: string, names: seq<string>, row: seq<Slot>): (r: map<string, string>)
    requires |row| == |names|
    ensures r.Keys == cache.Keys
    decreases |names|
  {
    if names == [] then cache
    else
      var m := Extend(cache, pk, key, names[..|names| - 1], row[..|row| - 1]);
      var name := names[|names| - 1];
      if name in m then m[name := m[name] + WhenText(pk, key, row[|row| - 1])] else m
  }

  /** The dictionary after the objects `objs`, starting from an empty builder per key of `dom`. */
  function WhensMap(dom: set<string>, pk: string, names: seq<string>, objs: seq<Entity>): (r: map<string, string>)
    ensures r.Keys == dom
    decreases |objs|
  {
    if objs == [] then map k | k in dom :: ""
    else
      var prefix := objs[..|objs| - 1];
      var o := objs[|objs| - 1];
      Extend(WhensMap(dom, pk, names, prefix), pk, Render(ValueOf(o, pk)), names,
             NumberFrom(RowCells(Plain(names), o), |BatchParams(Plain(names), prefix)|))
  }

  /** Extending a builder by one object appends exactly that object's fragments for its key. */
  lemma {:induction false} ExtendAt(cache: map<string, string>, pk: string, key: string, names: seq<string>,
                                    row: seq<Slot>, k: string)
    requires |row| == |names| && k in cache
    ensures Extend(cache, pk, key, names, row)[k] == cache[k] + ObjectWhens(pk, key, names, row, k)
    decreases |names|
  {
    if names != [] {
      var n := |names| - 1;
      var frag := if names[n] == k then WhenText(pk, key, row[n]) else "";
      ExtendLast(cache, pk, key, names, row, k);
      ExtendAt(cache, pk, key, names[..n], row[..n], k);
      var before := ObjectWhens(pk, key, names[..n], row[..n], k);
      assert cache[k] + before + frag == cache[k] + (before + frag);
    }
  }

  /** The last requested name of an object adds its fragment to that name's builder and no other. */
  lemma ExtendLast(cache: map<string, string>, pk: string, key: string, names: seq<string>, row: seq<Slot>, k: string)
    requires |row| == |names| && names != [] && k in cache
    ensures var n := |names| - 1;
            var frag := if names[n] == k then WhenText(pk, key, row[n]) else "";
            && Extend(cache, pk, key, names, row)[k] == Extend(cache, pk, key, names[..n], row[..n])[k] + frag
            && ObjectWhens(pk, key, names, row, k) == ObjectWhens(pk, key, names[..n], row[..n], k) + frag
  {
    var n := |names| - 1;
    var m := Extend(cache, pk, key, names[..n], row[..n]);
    assert Extend(cache, pk, key, names, row)
        == if names[n] in m then m[names[n] := m[names[n]] + WhenText(pk, key, row[n])] else m;
    assert k in m;
    assert ObjectWhens(pk, key, names, row, k)
        == ObjectWhens(pk, key, names[..n], row[..n], k) + (if names[n] == k then WhenText(pk, key, row[n]) else "");
  }

  /** Each builder of the dictionary holds the WHEN fragments of all objects for its key. */
  lemma {:induction false} WhensMapAt(dom: set<string>, pk: string, names: seq<string>, objs: seq<Entity>, k: string)
    requires k in dom
    ensures WhensMap(dom, pk, names, objs)[k] == Whens(pk, names, objs, k)
    decreases |objs|
  {
    if objs != [] {
      var prefix := objs[..|objs| - 1];
      var o := objs[|objs| - 1];
      WhensMapAt(dom, pk, names, prefix, k);
      ExtendAt(WhensMap(dom, pk, names, prefix), pk, Render(ValueOf(o, pk)), names,
               NumberFrom(RowCells(Plain(names), o), |BatchParams(Plain(names), prefix)|), k);
    }
  }

  /** One more requested name: its cell is bound exactly when the object's value is not null. */
  lemma PlainStep(names: seq<string>, c: nat, obj: Entity, start: nat)
    requires c < |names|
    ensures var cells := RowCells(Plain(names)[..c], obj);
            var v := ValueOf(obj, names[c]);
            && Bound(RowCells(Plain(names)[..c + 1], obj)) == Bound(cells) + (if v != VNull then [v] else [])
            && NumberFrom(RowCells(Plain(names)[..c + 1], obj), start)
               == NumberFrom(cells, start) + [if v != VNull then ParamSlot(start + |Bound(cells)|) else NullSlot]
  {
    RowStep(Plain(names), c, obj, start);
  }

  /** One more requested name of an object: one more WHEN in its builder. */
  lemma NameStep(cache: map<string, string>, pk: string, key: string, names: seq<string>, c: nat, obj: Entity,
                 params: seq<Value>)
    requires c < |names| && names[c] in cache
    ensures var cells := RowCells(Plain(names)[..c], obj);
            var v := ValueOf(obj, names[c]);
            var m := Extend(cache, pk, key, names[..c], NumberFrom(cells, |params|));
            var slot := if v != VNull then ParamSlot(|params + Bound(cells)|) else NullSlot;
            Extend(cache, pk, key, names[..c + 1], NumberFrom(RowCells(Plain(names)[..c + 1], obj), |params|))
               == m[names[c] := m[names[c]] + WhenText(pk, key, slot)]
  {
    var cells := RowCells(Plain(names)[..c], obj);
    var v := ValueOf(obj, names[c]);
    var slot := if v != VNull then ParamSlot(|params + Bound(cells)|) else NullSlot;
    PlainStep(names, c, obj, |params|);
    assert NumberFrom(RowCells(Plain(names)[..c + 1], obj), |params|) == NumberFrom(cells, |params|) + [slot];
    CacheStep(cache, pk, key, names, c, NumberFrom(cells, |params|), slot);
  }

  /** Appending one WHEN to the builder of names[c] is one step of Extend. */
  lemma CacheStep(cache: map<string, string>, pk: string, key: string, names: seq<string>, c: nat,
                  slots: seq<Slot>, slot: Slot)
    requires c < |names| && |slots| == c && names[c] in cache
    ensures var m := Extend(cache, pk, key, names[..c], slots);
            Extend(cache, pk, key, names[..c + 1], slots + [slot]) == m[names[c] := m[names[c]] + WhenText(pk, key, slot)]
  {
    assert names[..c + 1][..c] == names[..c];
    assert (slots + [slot])[..c] == slots;
  }

  /** Appending object i's fragments is one step of WhensMap. */
  lemma ObjectStep(dom: set<string>, pk: string, names: seq<string>, objs: seq<Entity>, i: nat)
    requires i < |objs|
    ensures Extend(WhensMap(dom, pk, names, objs[..i]), pk, Render(ValueOf(objs[i], pk)), names,
                   NumberFrom(RowCells(Plain(names), objs[i]), |BatchParams(Plain(names), objs[..i])|))
            == WhensMap(dom, pk, names, objs[..i + 1])
  {
    assert objs[..i + 1][..i] == objs[..i];
  }

  /** The SET list while clauses are still being appended: each clause followed by ", ". */
  function OpenSet(table: string, clauses: seq<string>): string
  {
    "UPDATE " + table + " SET " + Terminated(clauses, ", ")
  }

  lemma OpenSetSnoc(table: string, clauses: seq<string>, clause: string)
    ensures OpenSet(table, clauses + [clause]) == OpenSet(table, clauses) + clause + ", "
  {
    TerminatedSnoc(clauses, clause, ", ");
  }

  /** Cutting the last two characters closes the SET list; with no clause it cuts into "SET ". */
  lemma CloseSet(table: string, clauses: seq<string>)
    ensures |OpenSet(table, clauses)| >= 2
    ensures DropLast(OpenSet(table, clauses), 2)
            == if clauses == [] then "UPDATE " + table + " SE" else "UPDATE " + table + " SET " + Join(", ", clauses)
  {
    if clauses == [] {
      assert OpenSet(table, clauses) == ("UPDATE " + table + " SE") + "T ";
      DropSuffix("UPDATE " + table + " SE", "T ");
    } else {
      TerminatedIsJoinThenSep(clauses, ", ");
      assert OpenSet(table, clauses) == ("UPDATE " + table + " SET " + Join(", ", clauses)) + ", ";
      DropSuffix("UPDATE " + table + " SET " + Join(", ", clauses), ", ");
    }
  }

  // ----- The builder -----

  /**
   * One WHEN fragment appended to a per-name builder: `WHEN <pk> = <key> `, then `THEN NULL `
   * for a null value, or `THEN {paramIndex} ` with the value added as a parameter.
   */
  method AppendWhen(sb: string, pk: string, key: string, v: Value, params: seq<Value>, paramIndex: nat)
    returns (sb': string, params': seq<Value>, paramIndex': nat)
    requires paramIndex == |params|
    ensures sb' == sb + WhenText(pk, key, if v != VNull then ParamSlot(paramIndex) else NullSlot)
    ensures params' == params + (if v != VNull then [v] else [])
    ensures paramIndex' == |params'|
  {
    var head := WhenHead(pk, key);
    ghost var slot := if v != VNull then ParamSlot(paramIndex) else NullSlot;
    var tail: string;
    if v == VNull {
      tail := "THEN NULL ";
      params', paramIndex' := params, paramIndex;
    } else {
      tail := "THEN {" + NatToString(paramIndex) + "} ";
      params', paramIndex' := params + [v], paramIndex + 1;
    }
    ThenTexts(paramIndex);
    sb' := sb + head + tail;
    assert sb' == sb + (head + tail);
  }

  /**
   * The validation loop: every requested name must be a CLR property (otherwise
   * ArgumentException), and each gets an empty dictionary entry; a repeated name overwrites its
   * entry and keeps its place among the keys.
   */
  method OpenCache(t: EntityType, names: seq<string>) returns (r: Result<(seq<string>, map<string, string>)>)
    ensures r.Err? <==> UnknownName(t, names)
    ensures r.Err? ==> r.error == ArgumentException
    ensures r.Ok? ==>
              var (keys, cache) := r.value;
              && keys == DistinctKeys(names)
              && (forall k :: k in cache <==> k in keys)
              && (forall c :: 0 <= c < |names| ==> names[c] in cache)
              && (forall k :: k in cache ==> cache[k] == "")
  {
    var keys: seq<string> := [];
    var cache: map<string, string> := map[];
    var j := 0;
    while j < |names|
      invariant 0 <= j <= |names|
      invariant forall c :: 0 <= c < j ==> names[c] in t.clrProperties
      invariant keys == DistinctKeys(names[..j])
      invariant forall k :: k in cache <==> k in keys
      invariant forall c :: 0 <= c < j ==> names[c] in cache
      invariant forall k :: k in cache ==> cache[k] == ""
    {
      if names[j] !in t.clrProperties {
        return Err(ArgumentException);
      }
      DistinctKeysStep(names, j);
      if names[j] !in cache {
        keys := keys + [names[j]];
      }
      cache := cache[names[j] := ""];
      j := j + 1;
    }
    assert names[..j] == names;
    r := Ok((keys, cache));
  }

  /** One requested name of one object: its WHEN appended to the builder for that name. */
  method AppendName(pk: string, key: string, names: seq<string>, c: nat, obj: Entity, ghost cache: map<string, string>,
                    dict: map<string, string>, ghost params: seq<Value>, params': seq<Value>, paramIndex: nat)
    returns (dict': map<string, string>, params'': seq<Value>, paramIndex': nat)
    requires c < |names| && names[c] in cache
    requires params' == params + Bound(RowCells(Plain(names)[..c], obj)) && paramIndex == |params'|
    requires dict == Extend(cache, pk, key, names[..c], NumberFrom(RowCells(Plain(names)[..c], obj), |params|))
    ensures params'' == params + Bound(RowCells(Plain(names)[..c + 1], obj)) && paramIndex' == |params''|
    ensures dict' == Extend(cache, pk, key, names[..c + 1], NumberFrom(RowCells(Plain(names)[..c + 1], obj), |params|))
  {
    var name := names[c];
    var v := ValueOf(obj, name);
    PlainStep(names, c, obj, |params|);
    NameStep(cache, pk, key, names, c, obj, params);
    var sb;
    sb, params'', paramIndex' := AppendWhen(dict[name], pk, key, v, params', paramIndex);
    dict' := dict[name := sb];
  }

  /** One object: a WHEN appended to the builder of every requested name, in request order. */
  method AppendObject(pk: string, key: string, names: seq<string>, obj: Entity, cache: map<string, string>,
                      params: seq<Value>, paramIndex: nat)
    returns (cache': map<string, string>, params': seq<Value>, paramIndex': nat)
    requires forall c :: 0 <= c < |names| ==> names[c] in cache
    requires paramIndex == |params|
    ensures params' == params + Bound(RowCells(Plain(names), obj))
    ensures paramIndex' == |params'|
    ensures cache' == Extend(cache, pk, key, names, NumberFrom(RowCells(Plain(names), obj), |params|))
  {
    ghost var ps := Plain(names);
    cache', params', paramIndex' := cache, params, paramIndex;
    var c := 0;
    assert names[..0] == [] && ps[..0] == [];
    while c < |names|
      invariant 0 <= c <= |names|
      invariant params' == params + Bound(RowCells(ps[..c], obj)) && paramIndex' == |params'|
      invariant cache' == Extend(cache, pk, key, names[..c], NumberFrom(RowCells(ps[..c], obj), |params|))
    {
      cache', params', paramIndex' := AppendName(pk, key, names, c, obj, cache, cache', params, params', paramIndex');
      c := c + 1;
    }
    assert ps[..c] == ps;
    assert names[..c] == names;
  }

  /** The SET list: one `key = CASE <collected WHENs> ELSE key END, ` per dictionary key, in key order. */
  method AppendClauses(table: string, keys: seq<string>, cache: map<string, string>,
                       ghost pk: string, ghost names: seq<string>, ghost objs: seq<Entity>)
    returns (text: string)
    requires forall k :: k in keys ==> k in cache && cache[k] == Whens(pk, names, objs, k)
    ensures text == OpenSet(table, Clauses(pk, names, objs, keys))
  {
    text := "UPDATE " + table + " SET ";
    var n := 0;
    while n < |keys|
      invariant 0 <= n <= |keys|
      invariant text == OpenSet(table, Clauses(pk, names, objs, keys[..n]))
    {
      var key := keys[n];
      ClausesStep(pk, names, objs, keys, n);
      OpenSetSnoc(table, Clauses(pk, names, objs, keys[..n]), Clause(key, cache[key]));
      text := text + Clause(key, cache[key]) + ", ";
      n := n + 1;
    }
    assert keys[..n] == keys;
  }

  /** One object of the batch: its key recorded in `ids`, its WHENs appended, its values bound. */
  method AppendEntity(pk: string, names: seq<string>, objs: seq<Entity>, i: nat, ghost dom: set<string>,
                      ids: seq<string>, cache: map<string, string>, params: seq<Value>, paramIndex: nat)
    returns (ids': seq<string>, cache': map<string, string>, params': seq<Value>, paramIndex': nat)
    requires i < |objs| && forall c :: 0 <= c < |names| ==> names[c] in dom
    requires ids == Keys(pk, objs[..i]) && cache == WhensMap(dom, pk, names, objs[..i])
    requires params == BatchParams(Plain(names), objs[..i]) && paramIndex == |params|
    ensures ids' == Keys(pk, objs[..i + 1]) && cache' == WhensMap(dom, pk, names, objs[..i + 1])
    ensures params' == BatchParams(Plain(names), objs[..i + 1]) && paramIndex' == |params'|
  {
    var key := Render(ValueOf(objs[i], pk));
    KeysStep(pk, objs, i);
    ids' := ids + [key];
    BatchStep(Plain(names), objs, i);
    cache', params', paramIndex' := AppendObject(pk, key, names, objs[i], cache, params, paramIndex);
    ObjectStep(dom, pk, names, objs, i);
  }

  /**
   * The object loop: per object, read its key (a key with no CLR property, or a null key,
   * throws), record it in `ids` and append its WHENs and parameters.
   */
  method CollectObjects(t: EntityType, pk: string, objs: seq<Entity>, names: seq<string>, ghost dom: set<string>,
                        cache0: map<string, string>)
    returns (r: Result<(seq<string>, map<string, string>, seq<Value>)>)
    requires cache0 == WhensMap(dom, pk, names, []) && forall c :: 0 <= c < |names| ==> names[c] in dom
    ensures r.Err? <==> KeyUnreadable(t, pk, objs)
    ensures r.Err? ==> r.error == NullReferenceException
    ensures r.Ok? ==> r.value == (Keys(pk, objs), WhensMap(dom, pk, names, objs), BatchParams(Plain(names), objs))
  {
    var cache := cache0;
    var ids: seq<string> := [];
    var params: seq<Value> := [];
    var paramIndex := 0;
    var i := 0;
    assert objs[..0] == [];
    while i < |objs|
      invariant 0 <= i <= |objs|
      invariant i > 0 ==> pk in t.clrProperties
      invariant forall o :: 0 <= o < i ==> ValueOf(objs[o], pk) != VNull
      invariant ids == Keys(pk, objs[..i]) && cache == WhensMap(dom, pk, names, objs[..i])
      invariant params == BatchParams(Plain(names), objs[..i]) && paramIndex == |params|
    {
      if pk !in t.clrProperties {
        return Err(NullReferenceException);
      }
      if ValueOf(objs[i], pk) == VNull {
        return Err(NullReferenceException);
      }
      ids, cache, params, paramIndex := AppendEntity(pk, names, objs, i, dom, ids, cache, params, paramIndex);
      i := i + 1;
    }
    assert objs[..i] == objs;
    r := Ok((ids, cache, params));
  }

  /** The statement text: the SET list, the cut of its last ", ", and the WHERE clause. */
  method FinishText(table: string, pk: string, keys: seq<string>, cache: map<string, string>, ids: seq<string>,
                    ghost names: seq<string>, ghost objs: seq<Entity>)
    returns (text: string)
    requires forall k :: k in keys ==> k in cache && cache[k] == Whens(pk, names, objs, k)
    ensures text == UpdateText(table, pk, Clauses(pk, names, objs, keys), ids)
  {
    text := AppendClauses(table, keys, cache, pk, names, objs);
    CloseUpdate(table, pk, Clauses(pk, names, objs, keys), ids);
    text := DropLast(text, 2);
    text := text + " WHERE " + pk + " IN (" + Join(",", ids) + ")";
  }

  /** Cutting the open SET list and appending the WHERE clause gives the statement text. */
  lemma CloseUpdate(table: string, pk: string, clauses: seq<string>, ids: seq<string>)
    ensures |OpenSet(table, clauses)| >= 2
    ensures DropLast(OpenSet(table, clauses), 2) + " WHERE " + pk + " IN (" + Join(",", ids) + ")"
            == UpdateText(table, pk, clauses, ids)
  {
    CloseSet(table, clauses);
  }

  /**
   * The shared update builder: validate the requested names and open the dictionary; then the
   * object loop; finally the statement text.
   */
  method BuildCaseUpdate(t: EntityType, pk: string, objs: seq<Entity>, names: seq<string>)
    returns (r: Result<UpdateQuery>)
    ensures r == UpdateOutcome(t, pk, objs, names)
  {
    var dict := OpenCache(t, names);
    if dict.Err? {
      return Err(dict.error);
    }
    var (keys, cache) := dict.value;
    ghost var dom := cache.Keys;
    assert cache == WhensMap(dom, pk, names, []);
    var collected := CollectObjects(t, pk, objs, names, dom, cache);
    if collected.Err? {
      return Err(collected.error);
    }
    var (ids, filled, params) := collected.value;
    forall k | k in keys
      ensures k in filled && filled[k] == Whens(pk, names, objs, k)
    {
      WhensMapAt(dom, pk, names, objs, k);
    }
    var text := FinishText(t.tableName, pk, keys, filled, ids, names, objs);
    r := Ok(UpdateQuery(text, params, ids));
  }

  // ----- Properties of the update -----

  /** The dictionary has exactly the requested names as keys, each once. */
  lemma {:induction false} DistinctKeysSpec(names: seq<string>)
    ensures forall k :: k in DistinctKeys(names) <==> k in names
    ensures forall a, b :: 0 <= a < b < |DistinctKeys(names)| ==> DistinctKeys(names)[a] != DistinctKeys(names)[b]
    decreases |names|
  {
    if names != [] {
      var prefix := names[..|names| - 1];
      DistinctKeysSpec(prefix);
      assert names == prefix + [names[|names| - 1]];
    }
  }

  /** The SET list holds clause n for dictionary key n, with that key's collected WHENs. */
  lemma {:induction false} ClauseAt(pk: string, names: seq<string>, objs: seq<Entity>, keys: seq<string>, n: nat)
    requires n < |keys|
    ensures Clauses(pk, names, objs, keys)[n] == Clause(keys[n], Whens(pk, names, objs, keys[n]))
    decreases |keys|
  {
    var prior := keys[..|keys| - 1];
    var k := keys[|keys| - 1];
    var before := Clauses(pk, names, objs, prior);
    assert Clauses(pk, names, objs, keys) == before + [Clause(k, Whens(pk, names, objs, k))];
    if n < |keys| - 1 {
      ClauseAt(pk, names, objs, prior, n);
      assert keys[n] == prior[n];
    }
  }

  /** The slot written for object r and requested name c. */
  function SlotOf(names: seq<string>, objs: seq<Entity>, r: nat, c: nat): Slot
    requires r < |objs| && c < |names|
  {
    NumberFrom(RowCells(Plain(names), objs[r]), |BatchParams(Plain(names), objs[..r])|)[c]
  }

  /**
   * Object r's value for name c is a parameter exactly when it is not null, and then its
   * placeholder points at that value in the parameter list.
   */
  lemma SlotOfAt(names: seq<string>, objs: seq<Entity>, r: nat, c: nat)
    requires r < |objs| && c < |names|
    ensures var s := SlotOf(names, objs, r, c);
            && (s.ParamSlot? <==> ValueOf(objs[r], names[c]) != VNull)
            && (s.ParamSlot? ==>
                  s.index < |BatchParams(Plain(names), objs)|
                  && BatchParams(Plain(names), objs)[s.index] == ValueOf(objs[r], names[c]))
  {
    var ps := Plain(names);
    BatchRowAt(ps, objs, r);
    BatchSlotAt(ps, objs, r, c);
    if BatchRows(ps, objs)[r][c].ParamSlot? {
      BatchParamAt(ps, objs, r, c);
    }
  }

  /** One WHEN per object for requested name c, in input order. */
  function ColumnWhens(pk: string, names: seq<string>, objs: seq<Entity>, c: nat): string
    requires c < |names|
    decreases |objs|
  {
    if objs == [] then ""
    else
      var r := |objs| - 1;
      ColumnWhens(pk, names, objs[..r], c) + WhenText(pk, Render(ValueOf(objs[r], pk)), SlotOf(names, objs, r, c))
  }

  /** An object's fragments for a name requested once are exactly one WHEN, with that name's slot. */
  lemma {:induction false} ObjectWhensOnce(pk: string, key: string, names: seq<string>, row: seq<Slot>, c: nat)
    requires |row| == |names| && c < |names|
    requires forall j :: 0 <= j < |names| && j != c ==> names[j] != names[c]
    ensures ObjectWhens(pk, key, names, row, names[c]) == WhenText(pk, key, row[c])
    decreases |names|
  {
    var n := |names| - 1;
    if c < n {
      assert names[n] != names[c];
      ObjectWhensOnce(pk, key, names[..n], row[..n], c);
    } else {
      assert names[c] !in names[..n] by {
        forall j | 0 <= j < n ensures names[..n][j] != names[c] { }
      }
      ObjectWhensAbsent(pk, key, names[..n], row[..n], names[c]);
    }
  }

  /** A name not requested collects nothing. */
  lemma {:induction false} ObjectWhensAbsent(pk: string, key: string, names: seq<string>, row: seq<Slot>, name: string)
    requires |row| == |names| && name !in names
    ensures ObjectWhens(pk, key, names, row, name) == ""
    decreases |names|
  {
    if names != [] {
      var n := |names| - 1;
      assert names[n] != name;
      ObjectWhensAbsent(pk, key, names[..n], row[..n], name);
    }
  }

  /** For a name requested once, the clause's WHENs are one per object, in input order. */
  lemma {:induction false} WhensOnce(pk: string, names: seq<string>, objs: seq<Entity>, c: nat)
    requires c < |names|
    requires forall j :: 0 <= j < |names| && j != c ==> names[j] != names[c]
    ensures Whens(pk, names, objs, names[c]) == ColumnWhens(pk, names, objs, c)
    decreases |objs|
  {
    if objs != [] {
      var r := |objs| - 1;
      WhensOnce(pk, names, objs[..r], c);
      ObjectWhensOnce(pk, Render(ValueOf(objs[r], pk)), names,
                      NumberFrom(RowCells(Plain(names), objs[r]), |BatchParams(Plain(names), objs[..r])|), c);
    }
  }
}
