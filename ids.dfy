/**
 * The id source behind `generateId`. The store mints ids of its own; this
 * model stands in a counter whose ids are decimal strings, so that every id
 * it hands out is new.
 */
module Ids {
  import Strings

  /** The id handed out as the `n`-th one. */
  function IdOf(n: nat): string {
    Strings.Decimal(n)
  }

  class IdAllocator {
    var next: nat
    ghost var issued: set<string>

    ghost predicate Valid()
      reads this
    {
      issued == set k: nat | k < next :: IdOf(k)
    }

    constructor ()
      ensures Valid() && next == 0 && issued == {}
    {
      next := 0;
      issued := {};
    }

    /** `generateId()`: an id never handed out before. */
    method GenerateId() returns (id: string)
      requires Valid()
      modifies this
      ensures Valid()
      ensures id == IdOf(old(next)) && next == old(next) + 1
      ensures id !in old(issued) && issued == old(issued) + {id}
    {
      id := IdOf(next);
      forall k: nat | k < next ensures IdOf(k) != id {
        if IdOf(k) == id {
          Strings.DecimalInjective(k, next);
        }
      }
      next := next + 1;
      issued := issued + {id};
    }
  }
}
