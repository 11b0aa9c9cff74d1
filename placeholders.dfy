/**
 * Positional parameters: a builder walks its value cells in some order and, for each cell whose
 * value it binds, writes `{k}` with k the number of parameters added so far, then adds the value;
 * a cell it does not bind gets the literal NULL. These lemmas state once that text and parameter
 * list stay in lock-step.
 */
module Placeholders {
  import opened SqlText
  import opened EntityModel

  /** A value the builder visits, and whether it binds it as a parameter. */
  datatype Cell = Cell(value: Value, bound: bool)

  /** What the builder writes for a cell: `NULL`, or the placeholder `{index}`. */
  datatype Slot = NullSlot | ParamSlot(index: nat)

  /** The parameter list: the bound values, in visiting order. */
  function Bound(cells: seq<Cell>): (r: seq<Value>)
    ensures |r| <= |cells|
    decreases |cells|
  {
    if cells == [] then []
    else Bound(cells[..|cells| - 1]) + (if cells[|cells| - 1].bound then [cells[|cells| - 1].value] else [])
  }

  /** The slots written for `cells` when `start` parameters were added before them. */
  function NumberFrom(cells: seq<Cell>, start: nat): (r: seq<Slot>)
    ensures |r| == |cells|
    decreases |cells|
  {
    if cells == [] then []
    else
      var prefix := cells[..|cells| - 1];
      NumberFrom(prefix, start)
        + [if cells[|cells| - 1].bound then ParamSlot(start + |Bound(prefix)|) else NullSlot]
  }

  /** The placeholder indices among `slots`, in reading order. */
  function Indices(slots: seq<Slot>): seq<nat>
    decreases |slots|
  {
    if slots == [] then []
    else
      Indices(slots[..|slots| - 1])
        + (match slots[|slots| - 1] case NullSlot => [] case ParamSlot(k) => [k])
  }

  /** lo, lo + 1, ..., lo + n - 1 */
  function Range(lo: nat, n: nat): seq<nat>
  {
    seq(n, i requires 0 <= i < n => lo + i)
  }

  function SlotText(s: Slot): string
  {
    match s
    case NullSlot => "NULL"
    case ParamSlot(k) => "{" + NatToString(k) + "}"
  }

  /** Numbering a concatenation numbers the second part after the first part's parameters. */
  lemma {:induction false} NumberFromAppend(a: seq<Cell>, b: seq<Cell>, start: nat)
    ensures Bound(a + b) == Bound(a) + Bound(b)
    ensures NumberFrom(a + b, start) == NumberFrom(a, start) + NumberFrom(b, start + |Bound(a)|)
    decreases |b|
  {
    if b == [] {
      assert a + b == a;
    } else {
      var b' := b[..|b| - 1];
      assert (a + b)[..|a + b| - 1] == a + b';
      NumberFromAppend(a, b', start);
    }
  }

  /**
   * Lock-step: a cell gets a placeholder exactly when it is bound, and the placeholder `{k}`
   * names the parameter at position k - start, which is that cell's value.
   */
  lemma {:induction false} NumberFromAt(cells: seq<Cell>, start: nat, i: nat)
    requires i < |cells|
    ensures NumberFrom(cells, start)[i].ParamSlot? <==> cells[i].bound
    ensures NumberFrom(cells, start)[i].ParamSlot? ==>
              var k := NumberFrom(cells, start)[i].index;
              start <= k < start + |Bound(cells)| && Bound(cells)[k - start] == cells[i].value
    decreases |cells|
  {
    var prefix := cells[..|cells| - 1];
    if i < |cells| - 1 {
      NumberFromAt(prefix, start, i);
      assert cells[i] == prefix[i];
    }
  }

  /** Read in visiting order, the placeholders are start, start + 1, ..., one per parameter. */
  lemma {:induction false} NumberFromInOrder(cells: seq<Cell>, start: nat)
    ensures Indices(NumberFrom(cells, start)) == Range(start, |Bound(cells)|)
    decreases |cells|
  {
    if cells != [] {
      var prefix := cells[..|cells| - 1];
      var slots := NumberFrom(cells, start);
      assert slots[..|slots| - 1] == NumberFrom(prefix, start);
      NumberFromInOrder(prefix, start);
    }
  }

  /** Where `mid` sits inside `before + mid + after`. */
  lemma Middle<T>(whole: seq<T>, before: seq<T>, mid: seq<T>, after: seq<T>)
    requires whole == before + mid + after
    ensures |before| + |mid| <= |whole|
    ensures forall j :: 0 <= j < |mid| ==> whole[|before| + j] == mid[j]
  {
  }

  /**
   * Lock-step inside a longer parameter list: when `cells` are numbered from `start` and their
   * bound values sit at position `start` of the full list, a placeholder among them names that
   * cell's value in the full list.
   */
  lemma PlaceholderInList(whole: seq<Value>, start: nat, cells: seq<Cell>, i: nat)
    requires i < |cells| && start + |Bound(cells)| <= |whole|
    requires forall j :: 0 <= j < |Bound(cells)| ==> whole[start + j] == Bound(cells)[j]
    ensures var s := NumberFrom(cells, start)[i];
            s.ParamSlot? ==> s.index < |whole| && whole[s.index] == cells[i].value
  {
    NumberFromAt(cells, start, i);
  }

  /** A placeholder among cells whose bound values follow `before` in `whole` names its cell's value there. */
  lemma SlotInWhole(whole: seq<Value>, before: seq<Value>, cells: seq<Cell>, j: nat)
    requires before + Bound(cells) <= whole && j < |cells|
    ensures var s := NumberFrom(cells, |before|)[j];
            && (s.ParamSlot? <==> cells[j].bound)
            && (s.ParamSlot? ==> s.index < |whole| && whole[s.index] == cells[j].value)
  {
    var start := |before|;
    var bound := Bound(cells);
    forall m | 0 <= m < |bound|
      ensures whole[start + m] == bound[m]
    {
      assert whole[start + m] == (before + bound)[start + m];
    }
    NumberFromAt(cells, start, j);
    PlaceholderInList(whole, start, cells, j);
  }
}
