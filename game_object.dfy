/** The base component of game entities (GameObject.h): a flag word and a
    lifetime countdown that removes the entity's node when it runs out. */
module GameObjects {
  import Util

  class GameObject {
    var flags: bv32
    var duration: real
    /** Whether the component has removed its scene node. */
    var removed: bool

    /** A fresh object has no flags and no lifetime limit (-1). */
    constructor ()
      ensures flags == 0 && duration == -1.0 && !removed
    {
      flags := 0;
      duration := -1.0;
      removed := false;
    }

    /** A positive duration counts down by the time step, and the node goes
        once it reaches zero; a non-positive duration is never touched. */
    method Update(timeStep: real)
      modifies this
      ensures flags == old(flags)
      ensures old(duration) > 0.0 ==> duration == old(duration) - timeStep
      ensures old(duration) <= 0.0 ==> duration == old(duration)
      ensures removed <==> old(removed) || (old(duration) > 0.0 && old(duration) - timeStep <= 0.0)
    {
      if duration > 0.0 {
        duration := duration - timeStep;
        if duration <= 0.0 {
          removed := true;
        }
      }
    }

    /** Sets the bits of `flag`; every other bit stays. */
    method AddFlag(flag: bv32)
      modifies this
      ensures flags & flag == flag && Util.SameOutside(flags, old(flags), flag)
      ensures HasFlag(flag) <==> flag != 0
      ensures duration == old(duration) && removed == old(removed)
    {
      flags := Util.SetFlag(flags, flag);
    }

    /** Clears the bits of `flag`; every other bit stays. */
    method RemoveFlag(flag: bv32)
      modifies this
      ensures flags & flag == 0 && Util.SameOutside(flags, old(flags), flag)
      ensures !HasFlag(flag)
      ensures duration == old(duration) && removed == old(removed)
    {
      flags := Util.ClearFlag(flags, flag);
    }

    function HasFlag(flag: bv32): (r: bool)
      reads this
      ensures r <==> Util.HasFlag(flags, flag)
    {
      Util.HasFlag(flags, flag)
    }
  }
}
