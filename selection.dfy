/**
 * The selection cursor. Its implementation lives in module `selection`, which
 * is not part of this model: the class keeps the cursor's category index,
 * word index and focus, of which the dispatchers read only the category
 * index, and a ghost log of the calls made on it. Every method changes this
 * object only, appends itself to the log, and leaves the position after the
 * call unspecified.
 */
module Selection {

  datatype Focus = CategoryList | WordList

  /** One call of a mutating method of the selection. */
  datatype SelOp = Down | Up | FocusLeft | FocusRight(wordCount: nat)

  /** The method a call invokes, without its argument. */
  datatype SelMethod = MDown | MUp | MFocusLeft | MFocusRight

  function MethodOf(op: SelOp): SelMethod
  {
    match op
    case Down => MDown
    case Up => MUp
    case FocusLeft => MFocusLeft
    case FocusRight(_) => MFocusRight
  }

  /** The methods of a call log, in call order. */
  function MethodsOf(calls: seq<SelOp>): (ms: seq<SelMethod>)
    ensures |ms| == |calls|
    ensures forall i :: 0 <= i < |calls| ==> ms[i] == MethodOf(calls[i])
  {
    if calls == [] then [] else MethodsOf(calls[..|calls| - 1]) + [MethodOf(calls[|calls| - 1])]
  }

  /** Logging one more call adds its method at the end. */
  lemma MethodsOfAppend(calls: seq<SelOp>, op: SelOp)
    ensures MethodsOf(calls + [op]) == MethodsOf(calls) + [MethodOf(op)]
  {
    assert (calls + [op])[..|calls|] == calls;
  }

  class Selection {
    const categoryCount: nat
    var categoryIndex: nat
    var wordIndex: nat
    var focus: Focus
    ghost var calls: seq<SelOp>

    /** `Selection::new(categories.len())`. */
    constructor (categoryCount: nat)
      ensures this.categoryCount == categoryCount
      ensures calls == []
    {
      this.categoryCount := categoryCount;
      categoryIndex, wordIndex, focus := 0, 0, CategoryList;
      calls := [];
    }

    /** `get_categorie_index()`. */
    function CategoryIndex(): (i: nat)
      reads this
      ensures i == categoryIndex
    {
      categoryIndex
    }

    /** Picks an unspecified new position. */
    method Move()
      modifies this
      ensures calls == old(calls)
    {
      var c: nat, w: nat, f: Focus :| true;
      categoryIndex, wordIndex, focus := c, w, f;
    }

    method Down()
      modifies this
      ensures calls == old(calls) + [SelOp.Down]
    {
      Move();
      calls := calls + [SelOp.Down];
    }

    method Up()
      modifies this
      ensures calls == old(calls) + [SelOp.Up]
    {
      Move();
      calls := calls + [SelOp.Up];
    }

    method FocusLeft()
      modifies this
      ensures calls == old(calls) + [SelOp.FocusLeft]
    {
      Move();
      calls := calls + [SelOp.FocusLeft];
    }

    method FocusRight(wordCount: nat)
      modifies this
      ensures calls == old(calls) + [SelOp.FocusRight(wordCount)]
    {
      Move();
      calls := calls + [SelOp.FocusRight(wordCount)];
    }
  }
}
