/** The mutable two-element tuple that every game element uses as its position. */
module CommonApi {

  /** A pair whose two elements are overwritten in place. */
  class Pair<X, Y> {
    var first: X
    var second: Y

    constructor (firstElement: X, secondElement: Y)
      ensures first == firstElement && second == secondElement
    {
      first := firstElement;
      second := secondElement;
    }

    /** Overwrites both elements in a single step. */
    method SetPair(firstElement: X, secondElement: Y)
      modifies this
      ensures first == firstElement && second == secondElement
    {
      first, second := firstElement, secondElement;
    }

    /** Overwrites the first element; the second one keeps its value. */
    method SetFirstElement(firstElement: X)
      modifies this`first
      ensures first == firstElement && second == old(second)
    {
      first := firstElement;
    }

    /** Overwrites the second element; the first one keeps its value. */
    method SetSecondElement(secondElement: Y)
      modifies this`second
      ensures second == secondElement && first == old(first)
    {
      second := secondElement;
    }

    /** Reads the first element; this method has no modifies clause, so the pair is left as it was. */
    method GetFirstElement() returns (element: X)
      ensures element == first
    {
      element := first;
    }

    /** Reads the second element without changing the pair. */
    method GetSecondElement() returns (element: Y)
      ensures element == second
    {
      element := second;
    }
  }
}
