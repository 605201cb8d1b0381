/**
 * The problem representation that the unknown finder fills in: the problem's
 * annotated sentences and its append-only list of quantities.  A quantity refers
 * to the quantity it is a part of by its position in that list.
 */
module Problem {
  import opened Wrappers
  import opened Annotation

  /**
   * A constant read from a numeral, or the unknown of a question.  `qtype` is
   * `None` until the finder assigns the type; `partOf` is an index into the
   * problem's quantity list.
   */
  datatype Quantity = Quantity(
    value: string,
    sentenceId: int,
    position: int,
    isUnknown: bool,
    qtype: Option<seq<Token>>,
    context: map<string, set<int>>,
    isPart: bool,
    partOf: Option<nat>)

  /** What `addConstantQuantity(value, sId, position)` creates. */
  function NewConstant(value: string, sId: int, position: int): (q: Quantity)
    ensures !q.isUnknown && q.qtype.None? && !q.isPart && q.partOf.None?
    ensures q.value == value && q.sentenceId == sId && q.position == position
  {
    Quantity(value, sId, position, false, None, map[], false, None)
  }

  /** What `addUnknown(sId, position)` creates; an unknown has no surface value. */
  function NewUnknown(sId: int, position: int): (q: Quantity)
    ensures q.isUnknown && q.qtype.None? && !q.isPart && q.partOf.None?
    ensures q.sentenceId == sId && q.position == position
  {
    Quantity("", sId, position, true, None, map[], false, None)
  }

  /** Replacing the last element of `qs + [x]`. */
  lemma ReplaceLast(qs: seq<Quantity>, x: Quantity, y: Quantity)
    ensures (qs + [x])[|qs| := y] == qs + [y]
  {
  }

  class ProblemRepresentation {
    const sentences: seq<Sentence>
    var quantities: seq<Quantity>

    constructor (sentences: seq<Sentence>)
      ensures this.sentences == sentences && quantities == []
    {
      this.sentences := sentences;
      quantities := [];
    }

    /** `getNuberOfQuantities`. */
    function NumberOfQuantities(): (n: nat)
      reads this
      ensures n == |quantities|
    {
      |quantities|
    }

    /** Appends a new constant and returns its position in the list. */
    method AddConstantQuantity(value: string, sId: int, position: int) returns (i: nat)
      modifies this
      ensures quantities == old(quantities) + [NewConstant(value, sId, position)]
      ensures i == |old(quantities)|
    {
      i := |quantities|;
      quantities := quantities + [NewConstant(value, sId, position)];
    }

    /** Appends a new unknown and returns its position in the list. */
    method AddUnknown(sId: int, position: int) returns (i: nat)
      modifies this
      ensures quantities == old(quantities) + [NewUnknown(sId, position)]
      ensures i == |old(quantities)|
    {
      i := |quantities|;
      quantities := quantities + [NewUnknown(sId, position)];
    }

    /** `Quantity.setContext(key, ids, s)` on the quantity at position `i`. */
    method SetContext(i: nat, key: string, ids: set<int>)
      requires i < |quantities|
      modifies this
      ensures |quantities| == |old(quantities)|
      ensures quantities == old(quantities)[i := old(quantities)[i].(context := old(quantities)[i].context[key := ids])]
    {
      quantities := quantities[i := quantities[i].(context := quantities[i].context[key := ids])];
    }

    /** `Quantity.setPart(true)` followed by `setPartOf` of the quantity at `j`. */
    method SetPartOf(i: nat, j: nat)
      requires i < |quantities| && j < |quantities|
      modifies this
      ensures |quantities| == |old(quantities)|
      ensures quantities == old(quantities)[i := old(quantities)[i].(isPart := true, partOf := Some(j))]
    {
      quantities := quantities[i := quantities[i].(isPart := true, partOf := Some(j))];
    }

    /** `Quantity.setType` on the quantity at position `i`. */
    method SetType(i: nat, t: seq<Token>)
      requires i < |quantities|
      modifies this
      ensures |quantities| == |old(quantities)|
      ensures quantities == old(quantities)[i := old(quantities)[i].(qtype := Some(t))]
    {
      quantities := quantities[i := quantities[i].(qtype := Some(t))];
    }
  }
}
