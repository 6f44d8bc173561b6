/**
  A fresh-name oracle standing in for uuid.NewV4 (gofrs/uuid): every name it
  hands out differs from every name it handed out before. The random bits and
  the 8-4-4-4-12 spelling of real UUIDs are not modelled; a draw may fail, as
  NewV4 does when the system's random source fails.
*/
module Uuid {
  import opened Wrappers
  import Strconv

  datatype UuidError = RandomSourceFailed

  /** The name of the `i`-th successful draw. */
  function Name(i: nat): string {
    "uuid-" + Strconv.Itoa(i)
  }

  lemma NameInjective(i: nat, j: nat)
    requires Name(i) == Name(j)
    ensures i == j
  {
    assert Name(i)[5..] == Strconv.Itoa(i);
    assert Name(j)[5..] == Strconv.Itoa(j);
    Strconv.ItoaInjective(i, j);
  }

  class Generator {
    /** How many names have been drawn so far. */
    var drawn: nat
    /** Every name handed out so far. */
    ghost var issued: set<string>

    ghost predicate Valid()
      reads this
    {
      forall i: nat :: Name(i) in issued <==> i < drawn
    }

    constructor ()
      ensures Valid() && issued == {}
    {
      drawn := 0;
      issued := {};
    }

    /** uuid.NewV4: a name never handed out before, or an error when `fails`. */
    method NewV4(fails: bool) returns (r: Result<string, UuidError>)
      requires Valid()
      modifies this
      ensures Valid()
      ensures r.Err? <==> fails
      ensures r.Err? ==> issued == old(issued)
      ensures r.Ok? ==> r.value !in old(issued) && issued == old(issued) + {r.value} && r.value != ""
    {
      if fails {
        return Err(RandomSourceFailed);
      }
      var name := Name(drawn);
      forall i: nat ensures Name(i) in issued + {name} <==> i < drawn + 1 {
        if Name(i) == name {
          NameInjective(i, drawn);
        }
      }
      issued := issued + {name};
      drawn := drawn + 1;
      return Ok(name);
    }
  }
}
