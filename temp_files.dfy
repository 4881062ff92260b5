/** The part of the file system that predict_single touches: its uniquely named temporary
    files. Names are numbers; how the platform spells them is not modelled. */
module TempFiles {
  import opened Wrappers

  class Disk {
    /** The temporary files that currently exist. */
    var live: set<nat>
    /** Every name below this one has been handed out, so it is fresh. */
    var next: nat

    ghost predicate Valid()
      reads this
    {
      forall f :: f in live ==> f < next
    }

    constructor ()
      ensures Valid() && live == {}
    {
      live := {};
      next := 0;
    }

    /** Creates a new, uniquely named temporary file, unless creation fails. */
    method CreateTemp(fails: bool) returns (name: Option<nat>)
      requires Valid()
      modifies this
      ensures Valid()
      ensures name.None? <==> fails
      ensures name.Some? ==> name.value !in old(live) && live == old(live) + {name.value}
      ensures name.None? ==> live == old(live)
    {
      if fails {
        name := None;
      } else {
        name := Some(next);
        live := live + {next};
        next := next + 1;
      }
    }

    /** Deletes a file. Fails, changing nothing, when the file is already gone or when
        the platform refuses (fails). */
    method Unlink(name: nat, fails: bool) returns (ok: bool)
      requires Valid()
      modifies this
      ensures Valid()
      ensures ok <==> !fails && name in old(live)
      ensures live == if ok then old(live) - {name} else old(live)
    {
      ok := !fails && name in live;
      if ok {
        live := live - {name};
      }
    }

    /** The external tool leaves no file at this path. */
    method Discard(name: nat)
      requires Valid()
      modifies this
      ensures Valid()
      ensures live == old(live) - {name}
    {
      live := live - {name};
    }
  }
}
